/** Stable insertion sort, standing for the library's stable sort. */
module StableSort {
  ghost predicate WeakOrder<T(!new)>(less: (T, T) -> bool) {
    && (forall a, b :: less(a, b) ==> !less(b, a))
    && (forall a, b, c :: less(a, c) ==> less(a, b) || less(b, c))
  }

  ghost predicate Sorted<T>(s: seq<T>, less: (T, T) -> bool) {
    forall i, j | 0 <= i < j < |s| :: !less(s[j], s[i])
  }

  function Insert<T>(x: T, s: seq<T>, less: (T, T) -> bool): seq<T> {
    if s == [] then [x]
    else
      var n := |s| - 1;
      if less(x, s[n]) then Insert(x, s[..n], less) + [s[n]] else s + [x]
  }

  function Sort<T>(s: seq<T>, less: (T, T) -> bool): seq<T> {
    if s == [] then [] else Insert(s[|s| - 1], Sort(s[..|s| - 1], less), less)
  }

  lemma {:induction false} InsertElements<T>(x: T, s: seq<T>, less: (T, T) -> bool)
    ensures multiset(Insert(x, s, less)) == multiset(s) + multiset{x}
  {
    if s != [] {
      var n := |s| - 1;
      assert s == s[..n] + [s[n]];
      InsertElements(x, s[..n], less);
    }
  }

  lemma {:induction false} InsertSorted<T(!new)>(x: T, s: seq<T>, less: (T, T) -> bool)
    requires WeakOrder(less) && Sorted(s, less)
    ensures Sorted(Insert(x, s, less), less)
  {
    if s != [] {
      var n := |s| - 1;
      if less(x, s[n]) {
        var r := Insert(x, s[..n], less);
        InsertSorted(x, s[..n], less);
        InsertElements(x, s[..n], less);
        forall i | 0 <= i < |r| ensures !less(s[n], r[i]) {
          assert r[i] in multiset(r);
        }
      } else {
        forall i | 0 <= i < n ensures !less(x, s[i]) {
          assert !less(s[n], s[i]);
        }
      }
    }
  }

  lemma {:induction false} SortSorts<T(!new)>(s: seq<T>, less: (T, T) -> bool)
    ensures multiset(Sort(s, less)) == multiset(s) && |Sort(s, less)| == |s|
    ensures WeakOrder(less) ==> Sorted(Sort(s, less), less)
  {
    if s != [] {
      var n := |s| - 1;
      SortSorts(s[..n], less);
      InsertElements(s[n], Sort(s[..n], less), less);
      assert s == s[..n] + [s[n]];
      assert |multiset(Sort(s, less))| == |multiset(s)|;
      if WeakOrder(less) {
        InsertSorted(s[n], Sort(s[..n], less), less);
      }
    }
  }
}

/** The sort is stable. */
module StableOrder {
  import opened StableSort

  /** The elements that tie with `e`, in their order. */
  function Ties<T>(s: seq<T>, e: T, less: (T, T) -> bool): seq<T> {
    if s == [] then []
    else
      var n := |s| - 1;
      Ties(s[..n], e, less) + (if !less(s[n], e) && !less(e, s[n]) then [s[n]] else [])
  }

  lemma {:induction false} InsertKeepsTies<T(!new)>(x: T, s: seq<T>, e: T, less: (T, T) -> bool)
    requires WeakOrder(less)
    ensures Ties(Insert(x, s, less), e, less) ==
      Ties(s, e, less) + (if !less(x, e) && !less(e, x) then [x] else [])
  {
    var r := Insert(x, s, less);
    if s == [] {
      assert [x][..0] == [];
    } else {
      var n := |s| - 1;
      if less(x, s[n]) {
        InsertKeepsTies(x, s[..n], e, less);
        assert r[..|r| - 1] == Insert(x, s[..n], less);
      } else {
        assert r[..|r| - 1] == s;
      }
    }
  }

  /** Elements that tie keep their order. */
  lemma {:induction false} SortKeepsTies<T(!new)>(s: seq<T>, e: T, less: (T, T) -> bool)
    requires WeakOrder(less)
    ensures Ties(Sort(s, less), e, less) == Ties(s, e, less)
  {
    if s != [] {
      var n := |s| - 1;
      SortKeepsTies(s[..n], e, less);
      InsertKeepsTies(s[n], Sort(s[..n], less), e, less);
    }
  }
}

/**
 Provider balance: requests are spread so that no provider in play gets ahead of another by more
 than one, and one that was away rejoins without a burst.
 */
module Balance {
  import opened Base
  import opened MapSum
  import opened Ranking
  import opened StableSort

  function At(balance: map<string, int>, p: string): int {
    if p in balance then balance[p] else 0
  }

  function Highest(balance: map<string, int>, ps: seq<string>): (top: int)
    ensures 0 <= top && forall p | p in ps :: At(balance, p) <= top
  {
    if ps == [] then 0
    else
      var n := |ps| - 1;
      assert forall p | p in ps :: p == ps[n] || p in ps[..n];
      Max(Highest(balance, ps[..n]), At(balance, ps[n]))
  }

  function Floor(balance: map<string, int>, ps: seq<string>): int {
    Max(Highest(balance, ps) - 1, 0)
  }

  /** `after` is the balance once every provider in play has been lifted to the floor. */
  ghost predicate Rebased(balance: map<string, int>, ps: seq<string>, after: map<string, int>) {
    forall p :: At(after, p) == Lifted(At(balance, p), p in ps, Floor(balance, ps))
  }

  function Lifted(count: int, inPlay: bool, floor: int): int {
    if inPlay then Max(count, floor) else count
  }

  /** A provider goes first only if none in play has been used less. */
  ghost predicate Least(balance: map<string, int>, ps: seq<string>, head: string) {
    head in ps && forall p | p in ps :: At(balance, head) <= At(balance, p)
  }

  ghost predicate Level(balance: map<string, int>, ps: seq<string>) {
    forall p, q | p in ps && q in ps :: At(balance, p) <= At(balance, q) + 1
  }

  /** One reservation: rebase, then count the head. */
  ghost predicate Reserves(balance: map<string, int>, ps: seq<string>, head: string, after: map<string, int>) {
    exists mid :: Rebased(balance, ps, mid) && Least(mid, ps, head) && after == mid[head := At(mid, head) + 1]
  }

  /** From any prior balances, one reservation leaves all providers in play within one of each other. */
  lemma ReservationLevels(balance: map<string, int>, ps: seq<string>, head: string, after: map<string, int>)
    requires Reserves(balance, ps, head, after)
    ensures Level(after, ps)
  {
    var mid :| Rebased(balance, ps, mid) && Least(mid, ps, head) && after == mid[head := At(mid, head) + 1];
    forall p | p in ps ensures Floor(balance, ps) <= At(mid, p) <= Floor(balance, ps) + 1 {
      assert At(balance, p) <= Highest(balance, ps);
    }
  }

  /** While everyone is level and at least at zero, rebasing changes nothing. */
  lemma LevelNeedsNoRebase(balance: map<string, int>, ps: seq<string>, mid: map<string, int>, p: string)
    requires Level(balance, ps) && (forall q | q in ps :: At(balance, q) >= 0) && Rebased(balance, ps, mid)
    ensures At(mid, p) == At(balance, p)
  {
    HighestIsSomeones(balance, ps);
  }

  lemma {:induction false} HighestIsSomeones(balance: map<string, int>, ps: seq<string>)
    ensures Highest(balance, ps) == 0 || exists p :: p in ps && Highest(balance, ps) == At(balance, p)
  {
    if ps != [] {
      var n := |ps| - 1;
      HighestIsSomeones(balance, ps[..n]);
      assert ps[n] in ps && forall p | p in ps[..n] :: p in ps;
    }
  }

  // ---- consecutive reservations ----

  ghost predicate IsRun(states: seq<map<string, int>>, heads: seq<string>, ps: seq<string>) {
    |states| == |heads| + 1 && forall i | 0 <= i < |heads| :: Reserves(states[i], ps, heads[i], states[i + 1])
  }

  /** How much each provider in play was used since the start. */
  ghost function Shares(start: int, balance: map<string, int>, ps: set<string>): map<string, int> {
    map p | p in ps :: At(balance, p) - start
  }

  ghost predicate Naturals(m: map<string, int>) {
    forall p | p in m :: m[p] >= 0
  }

  ghost function AsNats(m: map<string, int>): map<string, nat>
    requires Naturals(m)
  {
    map p | p in m :: m[p] as nat
  }

  ghost predicate Bumped(a: map<string, int>, b: map<string, int>, ps: seq<string>, head: string) {
    head in ps && forall p | p in ps :: At(b, p) == At(a, p) + (if p == head then 1 else 0)
  }

  /** From level balances a reservation counts its head and touches nobody else. */
  lemma ReservationBumps(a: map<string, int>, b: map<string, int>, ps: seq<string>, head: string)
    requires Level(a, ps) && (forall q | q in ps :: At(a, q) >= 0) && Reserves(a, ps, head, b)
    ensures Bumped(a, b, ps, head)
  {
    var mid :| Rebased(a, ps, mid) && Least(mid, ps, head) && b == mid[head := At(mid, head) + 1];
    hide Rebased, Level;
    forall p | p in ps ensures At(b, p) == At(a, p) + (if p == head then 1 else 0) {
      LevelNeedsNoRebase(a, ps, mid, p);
    }
  }

  lemma SharesBump(start: int, a: map<string, int>, b: map<string, int>, ps: seq<string>, head: string)
    requires Bumped(a, b, ps, head) && Naturals(Shares(start, a, set p | p in ps))
    ensures Naturals(Shares(start, b, set p | p in ps))
    ensures Sum(AsNats(Shares(start, b, set p | p in ps))) == Sum(AsNats(Shares(start, a, set p | p in ps))) + 1
  {
    var names := set p | p in ps;
    assert forall p | p in names :: p in ps;
    assert head in names;
    BumpOne(Shares(start, a, names), Shares(start, b, names), head);
  }

  lemma BumpOne(m: map<string, int>, m': map<string, int>, head: string)
    requires Naturals(m) && head in m && m'.Keys == m.Keys
    requires forall p | p in m :: m'[p] == m[p] + (if p == head then 1 else 0)
    ensures Naturals(m') && Sum(AsNats(m')) == Sum(AsNats(m)) + 1
  {
    SumBump(AsNats(m), head);
    assert AsNats(m') == AsNats(m)[head := AsNats(m)[head] + 1];
  }

  lemma SumBump(m: map<string, nat>, p: string)
    requires p in m
    ensures Sum(m[p := m[p] + 1]) == Sum(m) + 1
  {
    var bumped := m[p := m[p] + 1];
    SumSplit(m, p);
    SumSplit(bumped, p);
    assert bumped - {p} == m - {p};
  }

  /** After k reservations the shares are level and add up to k. */
  lemma {:induction false} RunShares(states: seq<map<string, int>>, heads: seq<string>, ps: seq<string>, start: int,
                                     k: nat)
    requires IsRun(states, heads, ps) && k <= |heads| && start >= 0
    requires forall p | p in ps :: At(states[0], p) == start
    ensures Level(states[k], ps)
    ensures var m := Shares(start, states[k], set p | p in ps); Naturals(m) && Sum(AsNats(m)) == k
    decreases k
  {
    if k == 0 {
      SumZero(AsNats(Shares(start, states[0], set p | p in ps)));
    } else {
      hide Level, AsNats;
      var a, b, head := states[k - 1], states[k], heads[k - 1];
      RunShares(states, heads, ps, start, k - 1);
      assert Reserves(a, ps, head, b);
      ReservationLevels(a, ps, head, b);
      SharesStayAbove(start, a, ps);
      ReservationBumps(a, b, ps, head);
      SharesBump(start, a, b, ps, head);
    }
  }

  lemma SharesStayAbove(start: int, a: map<string, int>, ps: seq<string>)
    requires start >= 0 && Naturals(Shares(start, a, set p | p in ps))
    ensures forall q | q in ps :: At(a, q) >= 0
  {
    forall q | q in ps ensures At(a, q) >= 0 {
      assert q in Shares(start, a, set p | p in ps);
    }
  }

  function Times(n: int, x: int): int {
    n * x
  }

  lemma TimesSteps(n: int, x: int)
    ensures Times(0, x) == 0 && Times(n, x) == Times(n - 1, x) + x
  {
  }

  lemma {:induction false} SumBetween(m: map<string, nat>, lo: int, hi: int)
    requires forall p | p in m :: lo <= m[p] <= hi
    ensures Times(|m|, lo) <= Sum(m) <= Times(|m|, hi)
    decreases |m|
  {
    hide Times;
    TimesSteps(|m|, lo);
    TimesSteps(|m|, hi);
    if m != map[] {
      hide Sum;
      var p :| p in m;
      SumSplit(m, p);
      var rest := m - {p};
      assert |rest| == |m| - 1 by {
        assert rest.Keys == m.Keys - {p};
      }
      SumBetween(rest, lo, hi);
    }
  }

  lemma FloorOrCeil(k: int, n: int, c: int)
    requires n > 0 && n * c - (n - 1) <= k <= n * c + (n - 1)
    ensures c == k / n || c == (k + n - 1) / n
  {
    if k >= n * c {
      Quotient(k, n, c);
    } else {
      Quotient(k + n - 1, n, c);
    }
  }

  lemma Quotient(k: int, n: int, c: int)
    requires n > 0 && n * c <= k < n * c + n
    ensures k / n == c
  {
    var q := k / n;
    assert n * q <= k < n * q + n;
    Monotone(n, q + 1, c);
    Monotone(n, c + 1, q);
  }

  lemma Monotone(n: int, a: int, b: int)
    requires n > 0
    ensures a <= b ==> n * a <= n * b
  {
  }

  /** k reservations from equal balances give each of n providers the floor or the ceiling of k/n. */
  lemma FairShare(states: seq<map<string, int>>, heads: seq<string>, ps: seq<string>, start: int, p: string)
    requires IsRun(states, heads, ps) && start >= 0 && p in ps
    requires forall q | q in ps :: At(states[0], q) == start
    ensures var k, n, c := |heads|, |set q | q in ps|, At(states[|heads|], p) - start;
      n > 0 && (c == k / n || c == (k + n - 1) / n)
  {
    var k := |heads|;
    var names := set q | q in ps;
    RunShares(states, heads, ps, start, k);
    var m := AsNats(Shares(start, states[k], names));
    assert m.Keys == names && p in m && m[p] == At(states[k], p) - start;
    assert forall q | q in m :: q in ps && m[q] <= m[p] + 1 && m[p] <= m[q] + 1;
    hide IsRun, Level, Shares, AsNats;
    EvenShare(m, p, k, |names|);
  }

  /** Shares that differ by at most one and add up to k are each the floor or the ceiling of the average. */
  lemma EvenShare(m: map<string, nat>, p: string, k: nat, n: nat)
    requires p in m && Sum(m) == k && n == |m.Keys| && forall q | q in m :: m[q] <= m[p] + 1 && m[p] <= m[q] + 1
    ensures n > 0 && (m[p] == k / n || m[p] == (k + n - 1) / n)
  {
    hide Times, Sum;
    var c: int := m[p];
    var rest := m - {p};
    assert rest.Keys == m.Keys - {p} && |rest| == n - 1;
    assert Times(n - 1, c - 1) + c <= k <= Times(n - 1, c + 1) + c by {
      SumSplit(m, p);
      SumBetween(rest, c - 1, c + 1);
    }
    EvenBounds(k, n, c);
  }

  lemma EvenBounds(k: int, n: int, c: int)
    requires n > 0 && Times(n - 1, c - 1) + c <= k <= Times(n - 1, c + 1) + c
    ensures c == k / n || c == (k + n - 1) / n
  {
    Around(n, c);
    hide Times;
    FloorOrCeil(k, n, c);
  }

  lemma Around(n: int, c: int)
    ensures Times(n - 1, c - 1) + c == n * c - (n - 1)
    ensures Times(n - 1, c + 1) + c == n * c + (n - 1)
  {
  }

  // ---- ranking by effective use ----

  /** A provider group, its members best first, and its effective use: calls counted minus reliability. */
  datatype Weighed = Weighed(group: Group, use: real, order: nat)

  predicate Sooner(a: Weighed, b: Weighed) {
    a.use < b.use || (a.use == b.use && a.order < b.order)
  }

  lemma SoonerIsWeakOrder()
    ensures WeakOrder(Sooner)
  {
  }

  function Concat(ws: seq<Weighed>): seq<Candidate> {
    if ws == [] then [] else Concat(ws[..|ws| - 1]) + ws[|ws| - 1].group.members
  }

  lemma {:induction false} ConcatInsert(x: Weighed, ws: seq<Weighed>)
    ensures multiset(Concat(Insert(x, ws, Sooner))) == multiset(Concat(ws)) + multiset(x.group.members)
  {
    var r := Insert(x, ws, Sooner);
    if ws == [] {
      assert Concat([x]) == Concat([]) + x.group.members;
    } else {
      var n := |ws| - 1;
      if Sooner(x, ws[n]) {
        ConcatInsert(x, ws[..n]);
        assert r[..|r| - 1] == Insert(x, ws[..n], Sooner);
      } else {
        assert r[..|r| - 1] == ws;
      }
    }
  }

  lemma {:induction false} ConcatSort(ws: seq<Weighed>)
    ensures multiset(Concat(Sort(ws, Sooner))) == multiset(Concat(ws))
  {
    if ws != [] {
      ConcatSort(ws[..|ws| - 1]);
      ConcatInsert(ws[|ws| - 1], Sort(ws[..|ws| - 1], Sooner));
    }
  }

  /** Each group is weighed with its members in some order. */
  ghost predicate Weighs(ws: seq<Weighed>, groups: seq<Group>) {
    && |ws| == |groups|
    && forall i | 0 <= i < |ws| ::
      ws[i].group.provider == groups[i].provider && multiset(ws[i].group.members) == multiset(groups[i].members)
  }

  /** How often a candidate occurs among a provider's members. */
  function CountIn(groups: seq<Group>, c: Candidate): nat {
    if groups == [] then 0
    else
      var n := |groups| - 1;
      CountIn(groups[..n], c) + multiset(groups[n].members)[c]
  }

  lemma {:induction false} ConcatCount(ws: seq<Weighed>, groups: seq<Group>, c: Candidate)
    requires Weighs(ws, groups)
    ensures multiset(Concat(ws))[c] == CountIn(groups, c)
  {
    if ws != [] {
      var n := |ws| - 1;
      ConcatCount(ws[..n], groups[..n], c);
      assert multiset(ws[n].group.members)[c] == multiset(groups[n].members)[c];
    }
  }

  lemma {:induction false} CountOutside(groups: seq<Group>, c: Candidate)
    requires Grouped(groups) && Absent(groups, c.provider)
    ensures CountIn(groups, c) == 0
  {
    if groups != [] {
      var n := |groups| - 1;
      GroupedPrefix(groups, n);
      CountOutside(groups[..n], c);
      GroupedAt(groups, n);
      hide Grouped;
      assert c !in groups[n].members;
    }
  }

  lemma {:induction false} CountInside(groups: seq<Group>, c: Candidate, g: nat)
    requires Grouped(groups) && g < |groups| && groups[g].provider == c.provider
    ensures CountIn(groups, c) == multiset(groups[g].members)[c]
  {
    var n := |groups| - 1;
    GroupedPrefix(groups, n);
    GroupedAt(groups, g);
    GroupedAt(groups, n);
    hide Grouped;
    if g < n {
      CountInside(groups[..n], c, g);
      assert c !in groups[n].members;
    } else {
      CountOutside(groups[..n], c);
    }
  }

  lemma ConcatIsPermutation(ws: seq<Weighed>, groups: seq<Group>, cs: seq<Candidate>)
    requires Weighs(ws, groups) && Splits(groups, cs)
    ensures multiset(Concat(ws)) == multiset(cs)
  {
    forall c: Candidate ensures multiset(Concat(ws))[c] == multiset(cs)[c] {
      ConcatCount(ws, groups, c);
      OfCount(cs, c);
      if g: nat :| g < |groups| && groups[g].provider == c.provider {
        CountInside(groups, c, g);
        assert groups[g].members == Of(cs, c.provider);
      } else {
        CountOutside(groups, c);
        OfNone(cs, c.provider);
      }
    }
  }

  lemma {:induction false} ConcatHead(ws: seq<Weighed>)
    requires ws != [] && ws[0].group.members != []
    ensures Concat(ws) != [] && Concat(ws)[0] == ws[0].group.members[0]
  {
    var n := |ws| - 1;
    if n > 0 {
      ConcatHead(ws[..n]);
    } else {
      assert ws[..0] == [];
    }
  }

  function Providers(cs: seq<Candidate>): (ps: seq<string>)
    ensures |ps| == |cs| && forall i | 0 <= i < |cs| :: ps[i] == cs[i].provider
  {
    seq(|cs|, i requires 0 <= i < |cs| => cs[i].provider)
  }

  /** Effective use lies less than one call, and no more than that, below the calls counted. */
  ghost predicate UsesOf(ws: seq<Weighed>, balance: map<string, int>) {
    forall i | 0 <= i < |ws| ::
      && At(balance, ws[i].group.provider) as real - 1.0 <= ws[i].use < At(balance, ws[i].group.provider) as real
      && ws[i].group.members != [] && ws[i].group.members[0].provider == ws[i].group.provider
  }

  /** A group as weighed: its members best first, and its use the calls counted less the reliability of the best. */
  ghost predicate WeighedBy(w: Weighed, balance: map<string, int>, score: Candidate -> real, scoring: bool) {
    && w.group.members != []
    && (forall i | 0 <= i < |w.group.members| :: w.group.members[i].provider == w.group.provider)
    && w.use == At(balance, w.group.provider) as real - (if scoring then score(w.group.members[0]) else 1.0)
    && (scoring ==> forall i, j | 0 <= i < j < |w.group.members| ::
          score(w.group.members[i]) >= score(w.group.members[j]))
  }

  method Weigh(g: Group, balance: map<string, int>, score: Candidate -> real, scoring: bool, order: nat)
    returns (w: Weighed)
    requires g.members != [] && (forall c :: 0.0 < score(c) <= 1.0)
    requires forall c | c in g.members :: c.provider == g.provider
    ensures w.group.provider == g.provider && multiset(w.group.members) == multiset(g.members) && w.order == order
    ensures scoring ==> Sorted(w.group.members, (a, b) => score(a) > score(b))
    ensures UsesOf([w], balance) && WeighedBy(w, balance, score, scoring)
  {
    var members := g.members;
    var reliability := 1.0;
    if scoring {
      var better := (a, b) => score(a) > score(b);
      SortSorts(g.members, better);
      members := Sort(g.members, better);
      assert WeakOrder(better);
      reliability := score(members[0]);
    }
    assert members[0] in multiset(members);
    forall i | 0 <= i < |members| ensures members[i].provider == g.provider {
      assert members[i] in multiset(members);
    }
    w := Weighed(Group(g.provider, members), At(balance, g.provider) as real - reliability, order);
  }

  method WeighAll(groups: seq<Group>, balance: map<string, int>, score: Candidate -> real, scoring: bool)
    returns (ws: seq<Weighed>)
    requires Grouped(groups) && (forall c :: 0.0 < score(c) <= 1.0)
    ensures Weighs(ws, groups) && UsesOf(ws, balance)
    ensures forall i | 0 <= i < |ws| :: WeighedBy(ws[i], balance, score, scoring)
  {
    hide WeighedBy;
    ws := [];
    for i := 0 to |groups|
      invariant Weighs(ws, groups[..i]) && UsesOf(ws, balance)
      invariant forall j | 0 <= j < |ws| :: WeighedBy(ws[j], balance, score, scoring)
    {
      ghost var before := ws;
      var w := Weigh(groups[i], balance, score, scoring, i);
      ws := ws + [w];
      assert [w][0] == w;
    }
    assert groups[..|groups|] == groups;
  }

  lemma SortedHeadIsLeast(sorted: seq<Weighed>, ws: seq<Weighed>, balance: map<string, int>, ps: seq<string>)
    requires sorted != [] && Sorted(sorted, Sooner) && UsesOf(ws, balance) && multiset(sorted) == multiset(ws)
    requires forall p | p in ps :: exists i :: 0 <= i < |ws| && ws[i].group.provider == p
    requires sorted[0].group.provider in ps
    ensures Least(balance, ps, sorted[0].group.provider)
  {
    var head := sorted[0];
    assert head in multiset(ws);
    forall p | p in ps ensures At(balance, head.group.provider) <= At(balance, p) {
      var i :| 0 <= i < |ws| && ws[i].group.provider == p;
      assert ws[i] in multiset(sorted);
      var j :| 0 <= j < |sorted| && sorted[j] == ws[i];
      assert j > 0 ==> !Sooner(sorted[j], sorted[0]);
      assert head.use <= ws[i].use;
    }
  }

  /** Where a member of the i-th group stands in the whole list. */
  lemma {:induction false} ConcatPlace(ws: seq<Weighed>, i: nat) returns (g: nat, m: nat)
    requires i < |Concat(ws)|
    ensures g < |ws| && m < |ws[g].group.members| && i == |Concat(ws[..g])| + m
    ensures Concat(ws)[i] == ws[g].group.members[m]
  {
    var n := |ws| - 1;
    if i < |Concat(ws[..n])| {
      g, m := ConcatPlace(ws[..n], i);
      assert ws[..n][..g] == ws[..g];
    } else {
      g, m := n, i - |Concat(ws[..n])|;
    }
  }

  lemma {:induction false} ConcatGrows(ws: seq<Weighed>, g: nat, h: nat)
    requires g < h <= |ws|
    ensures |Concat(ws[..g])| + |ws[g].group.members| <= |Concat(ws[..h])|
    decreases h
  {
    assert ws[..h][..h - 1] == ws[..h - 1];
    if g < h - 1 {
      ConcatGrows(ws, g, h - 1);
    }
  }

  /** An earlier place belongs to an earlier group, or to the same one further up. */
  lemma PlacesInOrder(ws: seq<Weighed>, g: nat, m: nat, h: nat, n: nat)
    requires g < |ws| && h < |ws| && m < |ws[g].group.members| && n < |ws[h].group.members|
    requires |Concat(ws[..g])| + m < |Concat(ws[..h])| + n
    ensures g < h || (g == h && m < n)
  {
    if h < g {
      ConcatGrows(ws, h, g);
    }
  }

  /** What a provider counts as used: its calls, less the best score among its candidates if scores are in use. */
  ghost predicate IsUse(cs: seq<Candidate>, balance: map<string, int>, score: Candidate -> real, scoring: bool,
                        p: string,
                        u: real) {
    if !scoring then u == At(balance, p) as real - 1.0
    else
      && (exists c :: c in cs && c.provider == p && u == At(balance, p) as real - score(c))
      && (forall c | c in cs && c.provider == p :: u <= At(balance, p) as real - score(c))
  }

  /** One provider after the other, less used ones first, and each one's candidates best first. */
  ghost predicate ByUse(ranked: seq<Candidate>, balance: map<string, int>, score: Candidate -> real, scoring: bool) {
    && (forall i, j | 0 <= i < j < |ranked| && ranked[i].provider == ranked[j].provider ::
          scoring ==> score(ranked[i]) >= score(ranked[j]))
    && (forall i, j, u, v | 0 <= i < j < |ranked| && IsUse(ranked, balance, score, scoring, ranked[i].provider, u) &&
                            IsUse(ranked, balance, score, scoring, ranked[j].provider, v) :: u <= v)
    && (forall i, j, k | 0 <= i < j < k < |ranked| && ranked[i].provider == ranked[k].provider ::
          ranked[j].provider == ranked[i].provider)
  }

  ghost predicate OnePerProvider(ws: seq<Weighed>) {
    forall i, j | 0 <= i < |ws| && 0 <= j < |ws| && i != j :: ws[i].group.provider != ws[j].group.provider
  }

  lemma {:induction false} CountedOnce(ws: seq<Weighed>, w: Weighed)
    requires OnePerProvider(ws)
    ensures multiset(ws)[w] <= 1
  {
    if ws != [] {
      var n := |ws| - 1;
      CountedOnce(ws[..n], w);
      assert ws == ws[..n] + [ws[n]];
      if w == ws[n] {
        assert w !in ws[..n];
      }
    }
  }

  lemma CountedTwice(ws: seq<Weighed>, i: nat, j: nat)
    requires i < j < |ws| && ws[i] == ws[j]
    ensures multiset(ws)[ws[i]] >= 2
  {
    assert ws == ws[..i] + [ws[i]] + ws[i + 1..j] + [ws[j]] + ws[j + 1..];
  }

  lemma OnePerProviderStill(ws: seq<Weighed>, sorted: seq<Weighed>)
    requires OnePerProvider(ws) && multiset(sorted) == multiset(ws)
    ensures OnePerProvider(sorted)
  {
    forall i, j | 0 <= i < j < |sorted| ensures sorted[i].group.provider != sorted[j].group.provider {
      assert sorted[i] in multiset(ws) && sorted[j] in multiset(ws);
      var a :| 0 <= a < |ws| && ws[a] == sorted[i];
      var b :| 0 <= b < |ws| && ws[b] == sorted[j];
      if a == b {
        CountedTwice(sorted, i, j);
        CountedOnce(ws, ws[a]);
      }
    }
  }

  lemma MemberListed(ws: seq<Weighed>, g: nat)
    requires g < |ws| && ws[g].group.members != []
    ensures ws[g].group.members[0] in Concat(ws)
  {
    ConcatGrows(ws, g, |ws|);
    assert ws[..|ws|] == ws;
    var place := |Concat(ws[..g])|;
    var h, m := ConcatPlace(ws, place);
    if h < g {
      ConcatGrows(ws, h, g);
    } else if g < h {
      ConcatGrows(ws, g, h);
    }
  }

  /** A provider's use is the one its group was weighed with. */
  lemma UseIs(ws: seq<Weighed>, g: nat, balance: map<string, int>, score: Candidate -> real, scoring: bool, u: real)
    requires OnePerProvider(ws) && g < |ws| && forall i | 0 <= i < |ws| :: WeighedBy(ws[i], balance, score, scoring)
    requires IsUse(Concat(ws), balance, score, scoring, ws[g].group.provider, u)
    ensures u == ws[g].use
  {
    hide Concat;
    assert WeighedBy(ws[g], balance, score, scoring);
    if scoring {
      var p, best := ws[g].group.provider, ws[g].group.members[0];
      var c :| c in Concat(ws) && c.provider == p && u == At(balance, p) as real - score(c);
      var i :| 0 <= i < |Concat(ws)| && Concat(ws)[i] == c;
      var h, m := ConcatPlace(ws, i);
      assert WeighedBy(ws[h], balance, score, scoring);
      MemberListed(ws, g);
    }
  }

  lemma ConcatByUse(ws: seq<Weighed>, balance: map<string, int>, score: Candidate -> real, scoring: bool)
    requires OnePerProvider(ws) && Sorted(ws, Sooner)
    requires forall i | 0 <= i < |ws| :: WeighedBy(ws[i], balance, score, scoring)
    ensures ByUse(Concat(ws), balance, score, scoring)
  {
    hide Concat, IsUse;
    var ranked := Concat(ws);
    forall i, j | 0 <= i < j < |ranked|
      ensures ranked[i].provider == ranked[j].provider && scoring ==> score(ranked[i]) >= score(ranked[j])
      ensures forall u, v | IsUse(ranked, balance, score, scoring, ranked[i].provider, u) &&
                            IsUse(ranked, balance, score, scoring, ranked[j].provider, v) :: u <= v
    {
      var g, m := ConcatPlace(ws, i);
      var h, n := ConcatPlace(ws, j);
      PlacesInOrder(ws, g, m, h, n);
      assert WeighedBy(ws[g], balance, score, scoring) && WeighedBy(ws[h], balance, score, scoring);
      forall u, v | IsUse(ranked, balance, score, scoring, ranked[i].provider, u) &&
                    IsUse(ranked, balance, score, scoring, ranked[j].provider, v)
        ensures u <= v
      {
        UseIs(ws, g, balance, score, scoring, u);
        UseIs(ws, h, balance, score, scoring, v);
      }
    }
    forall i, j, k | 0 <= i < j < k < |ranked| && ranked[i].provider == ranked[k].provider
      ensures ranked[j].provider == ranked[i].provider
    {
      var a, x := ConcatPlace(ws, i);
      var b, y := ConcatPlace(ws, j);
      var c, z := ConcatPlace(ws, k);
      PlacesInOrder(ws, a, x, b, y);
      PlacesInOrder(ws, b, y, c, z);
      assert WeighedBy(ws[a], balance, score, scoring) && WeighedBy(ws[b], balance, score, scoring);
      assert WeighedBy(ws[c], balance, score, scoring);
    }
  }

  lemma WeighedApart(ws: seq<Weighed>, groups: seq<Group>)
    requires Weighs(ws, groups) && Grouped(groups)
    ensures OnePerProvider(ws)
  {
    forall i, j | 0 <= i < |ws| && 0 <= j < |ws| && i != j ensures ws[i].group.provider != ws[j].group.provider {
      GroupedAt(groups, i);
    }
  }

  /** Ranks candidates: within a provider by score, providers by effective use. */
  method Rank(cs: seq<Candidate>, balance: map<string, int>, score: Candidate -> real, scoring: bool)
    returns (ranked: seq<Candidate>)
    requires forall c :: 0.0 < score(c) <= 1.0
    ensures multiset(ranked) == multiset(cs)
    ensures cs != [] ==> ranked != [] && Least(balance, Providers(cs), ranked[0].provider)
    ensures ByUse(ranked, balance, score, scoring)
  {
    hide ByUse, WeighedBy;
    var groups := GroupByProvider(cs);
    var ws := WeighAll(groups, balance, score, scoring);
    var sorted := Sort(ws, Sooner);
    ranked := Concat(sorted);
    ConcatSort(ws);
    ConcatIsPermutation(ws, groups, cs);
    SortSorts(ws, Sooner);
    SoonerIsWeakOrder();
    WeighedApart(ws, groups);
    OnePerProviderStill(ws, sorted);
    forall i | 0 <= i < |sorted| ensures WeighedBy(sorted[i], balance, score, scoring) {
      assert sorted[i] in multiset(ws);
    }
    ConcatByUse(sorted, balance, score, scoring);
    if cs != [] {
      HeadOf(cs, groups, ws, sorted, balance);
    }
  }

  lemma HeadOf(cs: seq<Candidate>, groups: seq<Group>, ws: seq<Weighed>, sorted: seq<Weighed>, balance: map<string,
               int>)
    requires cs != [] && Splits(groups, cs) && Weighs(ws, groups) && UsesOf(ws, balance)
    requires Sorted(sorted, Sooner) && multiset(sorted) == multiset(ws)
    ensures Concat(sorted) != [] && Least(balance, Providers(cs), Concat(sorted)[0].provider)
  {
    hide Sorted, Least, Splits, Grouped;
    var ps := Providers(cs);
    EveryoneWeighed(cs, groups, ws);
    assert ps[0] in ps;
    var g :| 0 <= g < |ws| && ws[g].group.provider == ps[0];
    assert ws[g] in multiset(sorted);
    assert sorted[0] in multiset(ws);
    var k :| 0 <= k < |ws| && ws[k] == sorted[0];
    assert sorted[0].group.provider in ps by { SplitsInPlay(groups, cs, k); }
    ConcatHead(sorted);
    SortedHeadIsLeast(sorted, ws, balance, ps);
  }

  lemma EveryoneWeighed(cs: seq<Candidate>, groups: seq<Group>, ws: seq<Weighed>)
    requires Splits(groups, cs) && Weighs(ws, groups)
    ensures forall p | p in Providers(cs) :: exists i :: 0 <= i < |ws| && ws[i].group.provider == p
  {
    forall p | p in Providers(cs) ensures exists i :: 0 <= i < |ws| && ws[i].group.provider == p {
      var m :| 0 <= m < |cs| && cs[m].provider == p;
      assert cs[m] in cs;
      var i :| 0 <= i < |groups| && groups[i].provider == p;
      assert ws[i].group.provider == p;
    }
  }

  lemma SplitsInPlay(groups: seq<Group>, cs: seq<Candidate>, k: nat)
    requires Splits(groups, cs) && k < |groups|
    ensures groups[k].provider in Providers(cs)
  {
    if forall c | c in cs :: c.provider != groups[k].provider {
      OfNone(cs, groups[k].provider);
    } else {
      var c :| c in cs && c.provider == groups[k].provider;
      var m :| 0 <= m < |cs| && cs[m] == c;
      assert Providers(cs)[m] == groups[k].provider;
    }
  }

  class Balancer {
    var balance: map<string, int>

    constructor ()
      ensures balance == map[]
    {
      balance := map[];
    }

    method Rebase(ps: seq<string>)
      modifies this
      ensures Rebased(old(balance), ps, balance)
    {
      var top := 0;
      var todo: set<string> := {};
      for i := 0 to |ps|
        invariant top == Highest(balance, ps[..i]) && balance == old(balance)
        invariant todo == set p | p in ps[..i]
      {
        assert ps[..i + 1][..i] == ps[..i];
        todo := todo + {ps[i]};
        if At(balance, ps[i]) > top {
          top := At(balance, ps[i]);
        }
      }
      assert ps[..|ps|] == ps;
      var floor := top - 1;
      if floor < 0 {
        floor := 0;
      }
      Lift(todo, floor);
    }

    method Lift(names: set<string>, floor: int)
      modifies this
      ensures forall p :: At(balance, p) == Lifted(At(old(balance), p), p in names, floor)
    {
      var todo := names;
      while todo != {}
        invariant todo <= names
        invariant forall p :: At(balance, p) == Lifted(At(old(balance), p), p in names && p !in todo, floor)
        decreases todo
      {
        var p :| p in todo;
        todo := todo - {p};
        if At(balance, p) < floor {
          balance := balance[p := floor];
        }
      }
    }

    /** Chooses the primary provider and counts it in one step. */
    method RankAndReserve(cs: seq<Candidate>, score: Candidate -> real, scoring: bool)
      returns (ranked: seq<Candidate>, ghost mid: map<string, int>)
      requires forall c :: 0.0 < score(c) <= 1.0
      modifies this
      ensures multiset(ranked) == multiset(cs)
      ensures cs == [] ==> balance == old(balance)
      ensures cs != [] ==>
        && ranked != [] && Reserves(old(balance), Providers(cs), ranked[0].provider, balance)
        && Level(balance, Providers(cs))
        && Rebased(old(balance), Providers(cs), mid) && ByUse(ranked, mid, score, scoring)
    {
      hide Least, Rebased, ByUse;
      if cs == [] {
        return cs, balance;
      }
      Rebase(Providers(cs));
      mid := balance;
      ranked := Rank(cs, balance, score, scoring);
      var head := ranked[0].provider;
      balance := balance[head := At(balance, head) + 1];
      assert Rebased(old(balance), Providers(cs), mid) && Least(mid, Providers(cs), head);
      ReservationLevels(old(balance), Providers(cs), head, balance);
    }
  }
}
