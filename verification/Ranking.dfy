/**
 Candidate order: grouping by provider, the round robin over the groups, and the tail that is left
 after candidates whose quota was lost to a race are dropped from the front.
 */
module Ranking {
  import opened Base

  datatype Candidate = Candidate(provider: string, model: string)

  datatype Group = Group(provider: string, members: seq<Candidate>)

  function Of(cs: seq<Candidate>, provider: string): seq<Candidate> {
    if cs == [] then []
    else
      var n := |cs| - 1;
      Of(cs[..n], provider) + (if cs[n].provider == provider then [cs[n]] else [])
  }

  lemma {:induction false} OfConcat(a: seq<Candidate>, b: seq<Candidate>, provider: string)
    ensures Of(a + b, provider) == Of(a, provider) + Of(b, provider)
  {
    if b == [] {
      assert a + b == a;
    } else {
      var n := |b| - 1;
      assert (a + b)[..|a + b| - 1] == a + b[..n];
      OfConcat(a, b[..n], provider);
    }
  }

  ghost predicate Uniform(g: Group) {
    g.members != [] && forall m | 0 <= m < |g.members| :: g.members[m].provider == g.provider
  }

  /** Groups have members, all of the group's provider, and no two share a provider. */
  ghost predicate Grouped(groups: seq<Group>) {
    && (forall i | 0 <= i < |groups| :: Uniform(groups[i]))
    && (forall i, j | 0 <= i < j < |groups| :: groups[i].provider != groups[j].provider)
  }

  /** The groups hold exactly these candidates, each provider's in their order. */
  ghost predicate Splits(groups: seq<Group>, cs: seq<Candidate>) {
    && Grouped(groups)
    && (forall i | 0 <= i < |groups| :: groups[i].members == Of(cs, groups[i].provider))
    && (forall c | c in cs :: exists i :: 0 <= i < |groups| && groups[i].provider == c.provider)
  }

  // ---- the round robin ----

  /** A group's candidate at one depth, if it has one. */
  function MemberAt(g: Group, depth: nat): seq<Candidate> {
    if depth < |g.members| then [g.members[depth]] else []
  }

  /** Everyone's candidate at one depth. */
  function Row(groups: seq<Group>, depth: nat): seq<Candidate> {
    if groups == [] then []
    else
      var n := |groups| - 1;
      Row(groups[..n], depth) + MemberAt(groups[n], depth)
  }

  /** All rows above a depth. */
  function Rows(groups: seq<Group>, depth: nat): seq<Candidate> {
    if depth == 0 then [] else Rows(groups, depth - 1) + Row(groups, depth - 1)
  }

  ghost predicate Deep(groups: seq<Group>, depth: nat) {
    forall i | 0 <= i < |groups| :: |groups[i].members| <= depth
  }

  lemma {:induction false} DeepRow(groups: seq<Group>, depth: nat)
    ensures Row(groups, depth) == [] <==> Deep(groups, depth)
  {
    if groups != [] {
      var n := |groups| - 1;
      DeepRow(groups[..n], depth);
      assert forall i | 0 <= i < n :: groups[..n][i] == groups[i];
      assert Deep(groups, depth) <==> Deep(groups[..n], depth) && |groups[n].members| <= depth;
    }
  }

  /** The whole round robin: rows until one is empty. */
  ghost predicate IsRoundRobin(ranked: seq<Candidate>, groups: seq<Group>) {
    exists depth: nat :: Deep(groups, depth) && ranked == Rows(groups, depth)
  }

  lemma {:induction false} Deepest(groups: seq<Group>) returns (depth: nat)
    ensures Deep(groups, depth)
  {
    if groups == [] {
      depth := 0;
    } else {
      var n := |groups| - 1;
      depth := Deepest(groups[..n]);
      depth := Max(depth, |groups[n].members|);
      assert forall i | 0 <= i < n :: groups[..n][i] == groups[i];
    }
  }

  lemma NoRow(groups: seq<Group>, depth: nat)
    ensures Row(groups[..0], depth) == []
  {
  }

  lemma StepRow(groups: seq<Group>, i: nat, depth: nat)
    requires i < |groups|
    ensures Row(groups[..i + 1], depth) == Row(groups[..i], depth) + MemberAt(groups[i], depth)
  {
    assert groups[..i + 1][..i] == groups[..i];
  }

  method Interleave(groups: seq<Group>) returns (ranked: seq<Candidate>)
    ensures IsRoundRobin(ranked, groups)
  {
    hide Row;
    ranked := [];
    ghost var deepest := Deepest(groups);
    var depth: nat := 0;
    while true
      invariant ranked == Rows(groups, depth)
      invariant depth <= deepest
      decreases deepest - depth
    {
      var added := false;
      NoRow(groups, depth);
      for i := 0 to |groups|
        invariant ranked == Rows(groups, depth) + Row(groups[..i], depth)
        invariant added <==> Row(groups[..i], depth) != []
      {
        StepRow(groups, i, depth);
        if depth < |groups[i].members| {
          ranked := ranked + [groups[i].members[depth]];
          added := true;
        }
      }
      assert groups[..|groups|] == groups;
      DeepRow(groups, depth);
      if !added {
        assert ranked == Rows(groups, depth);
        break;
      }
      depth := depth + 1;
    }
  }

  // ---- what every cut of the round robin shows ----

  lemma OfMember(g: Group, depth: nat, provider: string)
    requires Uniform(g)
    ensures Of(MemberAt(g, depth), provider) == if g.provider == provider then MemberAt(g, depth) else []
  {
    if depth < |g.members| {
      var one := [g.members[depth]];
      assert one[..0] == [];
      assert g.members[depth].provider == g.provider;
    }
  }

  ghost predicate Absent(groups: seq<Group>, provider: string) {
    forall i | 0 <= i < |groups| :: groups[i].provider != provider
  }

  lemma GroupedAt(groups: seq<Group>, g: nat)
    requires Grouped(groups) && g < |groups|
    ensures Uniform(groups[g])
    ensures forall i | 0 <= i < |groups| && i != g :: groups[i].provider != groups[g].provider
  {
    assert forall i | 0 <= i < g :: groups[i].provider != groups[g].provider;
  }

  lemma {:induction false} OfRow(groups: seq<Group>, depth: nat, g: nat)
    requires Grouped(groups) && g < |groups|
    ensures Of(Row(groups, depth), groups[g].provider) == MemberAt(groups[g], depth)
  {
    var n := |groups| - 1;
    GroupedAt(groups, n);
    GroupedAt(groups, g);
    GroupedPrefix(groups, n);
    hide Of, MemberAt, Grouped, Uniform;
    OfMember(groups[n], depth, groups[g].provider);
    OfConcat(Row(groups[..n], depth), MemberAt(groups[n], depth), groups[g].provider);
    var a := Row(groups[..n], depth);
    assert Row(groups, depth) == a + MemberAt(groups[n], depth);
    if g < n {
      OfRow(groups[..n], depth, g);
      assert groups[..n][g] == groups[g];
      assert MemberAt(groups[g], depth) + [] == MemberAt(groups[g], depth);
    } else {
      OfRowNone(groups[..n], depth, groups[g].provider);
      assert [] + MemberAt(groups[n], depth) == MemberAt(groups[n], depth);
    }
  }

  lemma {:induction false} OfRowNone(groups: seq<Group>, depth: nat, provider: string)
    requires Grouped(groups) && Absent(groups, provider)
    ensures Of(Row(groups, depth), provider) == []
  {
    if groups != [] {
      var n := |groups| - 1;
      GroupedAt(groups, n);
      GroupedPrefix(groups, n);
      hide Of, MemberAt, Grouped, Uniform;
      OfMember(groups[n], depth, provider);
      OfConcat(Row(groups[..n], depth), MemberAt(groups[n], depth), provider);
      OfRowNone(groups[..n], depth, provider);
    }
  }

  function First(cs: seq<Candidate>, n: nat): seq<Candidate> {
    if n < |cs| then cs[..n] else cs
  }

  lemma FirstStep(g: Group, n: nat)
    ensures First(g.members, n) + MemberAt(g, n) == First(g.members, n + 1)
  {
  }

  lemma StepRows(groups: seq<Group>, depth: nat)
    requires depth > 0
    ensures Rows(groups, depth) == Rows(groups, depth - 1) + Row(groups, depth - 1)
  {
  }

  lemma OfBoth(a: seq<Candidate>, b: seq<Candidate>, provider: string, x: seq<Candidate>, y: seq<Candidate>,
               z: seq<Candidate>)
    requires Of(a, provider) == x && Of(b, provider) == y && x + y == z
    ensures Of(a + b, provider) == z
  {
    OfConcat(a, b, provider);
  }

  lemma NoRows(groups: seq<Group>, g: Group, provider: string)
    ensures Of(Rows(groups, 0), provider) == [] == First(g.members, 0)
  {
  }

  /** Down to any depth, each provider's candidates appear in its own order. */
  lemma {:induction false} OfRows(groups: seq<Group>, depth: nat, g: nat)
    requires Grouped(groups) && g < |groups|
    ensures Of(Rows(groups, depth), groups[g].provider) == First(groups[g].members, depth)
  {
    hide *;
    if depth == 0 {
      NoRows(groups, groups[g], groups[g].provider);
    } else {
      var d, p := depth - 1, groups[g].provider;
      OfRows(groups, d, g);
      OfRow(groups, d, g);
      FirstStep(groups[g], d);
      OfBoth(Rows(groups, d), Row(groups, d), p, First(groups[g].members, d), MemberAt(groups[g], d),
             First(groups[g].members, depth));
      StepRows(groups, depth);
    }
  }

  lemma {:induction false} OfRowsNone(groups: seq<Group>, depth: nat, provider: string)
    requires Grouped(groups) && Absent(groups, provider)
    ensures Of(Rows(groups, depth), provider) == []
  {
    hide *;
    if depth == 0 {
      NoRows(groups, Group("", []), provider);
    } else {
      OfRowsNone(groups, depth - 1, provider);
      OfRowNone(groups, depth - 1, provider);
      OfBoth(Rows(groups, depth - 1), Row(groups, depth - 1), provider, [], [], []);
      StepRows(groups, depth);
    }
  }

  lemma {:induction false} RowCut(groups: seq<Group>, depth: nat, e: nat) returns (c: nat)
    requires e <= |Row(groups, depth)|
    ensures c <= |groups| && Row(groups, depth)[..e] == Row(groups[..c], depth)
  {
    if e == |Row(groups, depth)| {
      c := |groups|;
      assert groups[..c] == groups;
    } else {
      var n := |groups| - 1;
      c := RowCut(groups[..n], depth, e);
      assert groups[..n][..c] == groups[..c];
    }
  }

  /** Any prefix of the round robin is some full rows and the beginning of the next. */
  lemma {:induction false} RowsCut(groups: seq<Group>, depth: nat, e: nat) returns (d: nat, c: nat)
    requires e <= |Rows(groups, depth)|
    ensures c <= |groups| && Rows(groups, depth)[..e] == Rows(groups, d) + Row(groups[..c], d)
    decreases depth
  {
    if depth == 0 {
      d, c := 0, 0;
    } else if e <= |Rows(groups, depth - 1)| {
      d, c := RowsCut(groups, depth - 1, e);
    } else {
      d := depth - 1;
      c := RowCut(groups, d, e - |Rows(groups, d)|);
    }
  }

  lemma GroupedPrefix(groups: seq<Group>, c: nat)
    requires Grouped(groups) && c <= |groups|
    ensures Grouped(groups[..c])
  {
  }

  /** How many of a provider's candidates a cut has used, while some are left. */
  lemma CutCount(groups: seq<Group>, d: nat, c: nat, g: nat)
    requires Grouped(groups) && c <= |groups| && g < |groups|
    requires |Of(Rows(groups, d) + Row(groups[..c], d), groups[g].provider)| < |groups[g].members|
    ensures |Of(Rows(groups, d) + Row(groups[..c], d), groups[g].provider)| == d + (if g < c then 1 else 0)
  {
    var p := groups[g].provider;
    GroupedPrefix(groups, c);
    OfConcat(Rows(groups, d), Row(groups[..c], d), p);
    OfRows(groups, d, g);
    if g < c {
      OfRow(groups[..c], d, g);
    } else {
      OfRowNone(groups[..c], d, p);
    }
  }

  /** Candidates of a provider in the first `e` places. */
  function Used(ranked: seq<Candidate>, e: nat, provider: string): nat
    requires e <= |ranked|
  {
    |Of(ranked[..e], provider)|
  }

  lemma UsedGrows(ranked: seq<Candidate>, d: nat, e: nat, provider: string)
    requires d <= e <= |ranked|
    ensures Used(ranked, e, provider) == Used(ranked, d, provider) + |Of(ranked[d..e], provider)|
  {
    assert ranked[..e] == ranked[..d] + ranked[d..e];
    OfConcat(ranked[..d], ranked[d..e], provider);
  }

  /**
   Fairness of every stretch: from any place `d` on, as long as two providers both have candidates left,
   they have been used equally often up to one. Dropping from the front and truncating keep this.
   */
  lemma StretchIsFair(ranked: seq<Candidate>, groups: seq<Group>, d: nat, e: nat, g: nat, h: nat)
    requires Grouped(groups) && IsRoundRobin(ranked, groups) && d <= e <= |ranked| && g < |groups| && h < |groups|
    requires Used(ranked, e, groups[g].provider) < |groups[g].members|
    requires Used(ranked, e, groups[h].provider) < |groups[h].members|
    ensures -1 <= |Of(ranked[d..e], groups[g].provider)| - |Of(ranked[d..e], groups[h].provider)| <= 1
  {
    var depth :| Deep(groups, depth) && ranked == Rows(groups, depth);
    UsedGrows(ranked, d, e, groups[g].provider);
    UsedGrows(ranked, d, e, groups[h].provider);
    var d1, c1 := RowsCut(groups, depth, d);
    var d2, c2 := RowsCut(groups, depth, e);
    CutCount(groups, d1, c1, g);
    CutCount(groups, d1, c1, h);
    CutCount(groups, d2, c2, g);
    CutCount(groups, d2, c2, h);
  }

  /** The round robin keeps each provider's own order and all of its candidates. */
  lemma KeepsEachOrder(ranked: seq<Candidate>, groups: seq<Group>, g: nat)
    requires Grouped(groups) && IsRoundRobin(ranked, groups) && g < |groups|
    ensures Of(ranked, groups[g].provider) == groups[g].members
  {
    var depth :| Deep(groups, depth) && ranked == Rows(groups, depth);
    OfRows(groups, depth, g);
  }

  lemma {:induction false} OfCount(cs: seq<Candidate>, c: Candidate)
    ensures multiset(cs)[c] == multiset(Of(cs, c.provider))[c]
  {
    if cs != [] {
      var n := |cs| - 1;
      assert cs == cs[..n] + [cs[n]];
      OfCount(cs[..n], c);
    }
  }

  /** Nothing is introduced, lost or duplicated. */
  lemma IsPermutation(ranked: seq<Candidate>, groups: seq<Group>, cs: seq<Candidate>)
    requires Splits(groups, cs) && IsRoundRobin(ranked, groups)
    ensures multiset(ranked) == multiset(cs)
  {
    forall c: Candidate ensures multiset(ranked)[c] == multiset(cs)[c] {
      OfCount(ranked, c);
      OfCount(cs, c);
      if g: nat :| g < |groups| && groups[g].provider == c.provider {
        KeepsEachOrder(ranked, groups, g);
      } else {
        var depth :| Deep(groups, depth) && ranked == Rows(groups, depth);
        OfRowsNone(groups, depth, c.provider);
        OfNone(cs, c.provider);
      }
    }
  }

  lemma {:induction false} OfNone(cs: seq<Candidate>, provider: string)
    requires forall c | c in cs :: c.provider != provider
    ensures Of(cs, provider) == []
  {
    if cs != [] {
      assert cs[|cs| - 1] in cs;
      OfNone(cs[..|cs| - 1], provider);
    }
  }

  // ---- from candidates to a ranked list ----

  lemma OfLast(cs: seq<Candidate>, i: nat, provider: string)
    requires i < |cs|
    ensures Of(cs[..i + 1], provider) == Of(cs[..i], provider) + (if cs[i].provider == provider then [cs[i]] else [])
  {
    assert cs[..i + 1][..i] == cs[..i];
  }

  ghost predicate Indexed(groups: seq<Group>, index: map<string, nat>) {
    && (forall p | p in index :: index[p] < |groups| && groups[index[p]].provider == p)
    && (forall i | 0 <= i < |groups| :: groups[i].provider in index && index[groups[i].provider] == i)
  }

  /** The groups hold the candidates seen so far. */
  ghost predicate Collects(groups: seq<Group>, cs: seq<Candidate>) {
    && (forall i | 0 <= i < |groups| :: groups[i].members == Of(cs, groups[i].provider) != [])
    && (forall c | c in cs :: exists i :: 0 <= i < |groups| && groups[i].provider == c.provider)
  }

  lemma CollectsSplits(groups: seq<Group>, index: map<string, nat>, cs: seq<Candidate>)
    requires Indexed(groups, index) && Collects(groups, cs)
    ensures Splits(groups, cs)
  {
    forall i | 0 <= i < |groups| ensures Uniform(groups[i]) {
      forall m | 0 <= m < |groups[i].members| ensures groups[i].members[m].provider == groups[i].provider {
        OfMembers(cs, groups[i].provider, m);
      }
    }
  }

  lemma {:induction false} OfMembers(cs: seq<Candidate>, provider: string, m: nat)
    requires m < |Of(cs, provider)|
    ensures Of(cs, provider)[m].provider == provider
  {
    var n := |cs| - 1;
    if m < |Of(cs[..n], provider)| {
      OfMembers(cs[..n], provider, m);
    }
  }

  /** One more candidate joins its provider's group, or opens one. */
  function Joined(groups: seq<Group>, index: map<string, nat>, c: Candidate): (seq<Group>, map<string, nat>)
    requires c.provider in index ==> index[c.provider] < |groups|
  {
    if c.provider in index then
      var i := index[c.provider];
      (groups[i := groups[i].(members := groups[i].members + [c])], index)
    else
      (groups + [Group(c.provider, [c])], index[c.provider := |groups|])
  }

  lemma JoinedIndexed(groups: seq<Group>, index: map<string, nat>, c: Candidate)
    requires Indexed(groups, index)
    ensures Indexed(Joined(groups, index, c).0, Joined(groups, index, c).1)
  {
  }

  lemma JoinedCollects(groups: seq<Group>, index: map<string, nat>, cs: seq<Candidate>, i: nat)
    requires i < |cs| && Indexed(groups, index) && Collects(groups, cs[..i])
    ensures Collects(Joined(groups, index, cs[i]).0, cs[..i + 1])
  {
    var c := cs[i];
    var after := Joined(groups, index, c).0;
    if c.provider !in index {
      assert Of(cs[..i], c.provider) == [] by {
        OfNoneInGroups(groups, index, cs[..i], c.provider);
      }
    }
    forall k | 0 <= k < |after| ensures after[k].members == Of(cs[..i + 1], after[k].provider) != [] {
      OfLast(cs, i, after[k].provider);
    }
    forall x | x in cs[..i + 1] ensures exists k :: 0 <= k < |after| && after[k].provider == x.provider {
      if x in cs[..i] {
        var k :| 0 <= k < |groups| && groups[k].provider == x.provider;
        assert after[k].provider == x.provider;
      } else {
        assert x == c;
        var k := if c.provider in index then index[c.provider] else |groups|;
        assert after[k].provider == c.provider;
      }
    }
  }

  lemma OfNoneInGroups(groups: seq<Group>, index: map<string, nat>, cs: seq<Candidate>, provider: string)
    requires Indexed(groups, index) && Collects(groups, cs) && provider !in index
    ensures Of(cs, provider) == []
  {
    forall c | c in cs ensures c.provider != provider {
      var i :| 0 <= i < |groups| && groups[i].provider == c.provider;
    }
    OfNone(cs, provider);
  }

  /** Sorts candidates into groups by provider, in order of first appearance. */
  method GroupByProvider(cs: seq<Candidate>) returns (groups: seq<Group>)
    ensures Splits(groups, cs)
  {
    hide Collects, Indexed;
    groups := [];
    var index: map<string, nat> := map[];
    assert Indexed(groups, index) && Collects(groups, []) by { EmptyCollects(); }
    assert cs[..0] == [];
    for i := 0 to |cs|
      invariant Indexed(groups, index) && Collects(groups, cs[..i])
    {
      JoinedIndexed(groups, index, cs[i]);
      JoinedCollects(groups, index, cs, i);
      assert cs[i].provider in index ==> index[cs[i].provider] < |groups| by { InIndex(groups, index, cs[i].provider); }
      if cs[i].provider in index {
        var k := index[cs[i].provider];
        groups := groups[k := groups[k].(members := groups[k].members + [cs[i]])];
      } else {
        index := index[cs[i].provider := |groups|];
        groups := groups + [Group(cs[i].provider, [cs[i]])];
      }
    }
    assert cs[..|cs|] == cs;
    CollectsSplits(groups, index, cs);
  }

  lemma EmptyCollects()
    ensures Indexed([], map[]) && Collects([], [])
  {
  }

  lemma InIndex(groups: seq<Group>, index: map<string, nat>, p: string)
    requires Indexed(groups, index)
    ensures p in index ==> index[p] < |groups|
  {
  }

  /** The places of a sort's result. */
  ghost predicate IsOrder(order: seq<nat>, n: nat) {
    && |order| == n && (forall i | 0 <= i < n :: order[i] < n)
    && (forall i, j | 0 <= i < j < n :: order[i] != order[j])
    && (forall k | 0 <= k < n :: k in order)
  }

  function Arranged(groups: seq<Group>, order: seq<nat>): (r: seq<Group>)
    requires forall i | 0 <= i < |order| :: order[i] < |groups|
    ensures |r| == |order| && forall i | 0 <= i < |order| :: r[i] == groups[order[i]]
  {
    seq(|order|, i requires 0 <= i < |order| => groups[order[i]])
  }

  lemma ArrangedSplits(groups: seq<Group>, order: seq<nat>, cs: seq<Candidate>)
    requires Splits(groups, cs) && IsOrder(order, |groups|)
    ensures Splits(Arranged(groups, order), cs)
  {
    var r := Arranged(groups, order);
    forall i, j | 0 <= i < j < |r| ensures r[i].provider != r[j].provider {
      var a, b := order[i], order[j];
      assert a < b || b < a;
    }
    forall c | c in cs ensures exists i :: 0 <= i < |r| && r[i].provider == c.provider {
      var k :| 0 <= k < |groups| && groups[k].provider == c.provider;
      assert k in order;
      var i :| 0 <= i < |order| && order[i] == k;
      assert r[i].provider == c.provider;
    }
  }

  /** The candidates that pass the planner. */
  method Eligible(cs: seq<Candidate>, fits: seq<bool>) returns (eligible: seq<Candidate>)
    requires |fits| == |cs|
    ensures eligible == Kept(cs, fits)
  {
    eligible := [];
    for i := 0 to |cs|
      invariant eligible == Kept(cs[..i], fits[..i])
    {
      assert cs[..i + 1][..i] == cs[..i] && fits[..i + 1][..i] == fits[..i];
      if fits[i] {
        eligible := eligible + [cs[i]];
      }
    }
    assert cs[..|cs|] == cs && fits[..|fits|] == fits;
  }

  /** The round robin over the candidates that fit, their groups arranged in whatever way `sort` says. */
  method RoundRobin(cs: seq<Candidate>, fits: seq<bool>, sort: seq<Group> -> seq<nat>)
    returns (ranked: seq<Candidate>, ghost groups: seq<Group>)
    requires |fits| == |cs| && forall gs :: IsOrder(sort(gs), |gs|)
    ensures Splits(groups, Kept(cs, fits)) && IsRoundRobin(ranked, groups)
    ensures multiset(ranked) == multiset(Kept(cs, fits))
  {
    hide Splits, IsRoundRobin, Kept;
    var eligible := Eligible(cs, fits);
    var found := GroupByProvider(eligible);
    ArrangedSplits(found, sort(found), eligible);
    var arranged := Arranged(found, sort(found));
    groups := arranged;
    ranked := Interleave(arranged);
    IsPermutation(ranked, groups, eligible);
  }

  function Kept(cs: seq<Candidate>, fits: seq<bool>): seq<Candidate>
    requires |fits| == |cs|
  {
    if cs == [] then []
    else
      var n := |cs| - 1;
      Kept(cs[..n], fits[..n]) + (if fits[n] then [cs[n]] else [])
  }

  // ---- the list that is returned ----

  /** In every prefix of the returned list, two providers with candidates left differ by at most one. */
  lemma PrefixIsFair(ranked: seq<Candidate>, groups: seq<Group>, dropped: nat, m: nat, g: nat, h: nat)
    requires Grouped(groups) && IsRoundRobin(ranked, groups) && g < |groups| && h < |groups|
    requires dropped + m <= |ranked|
    requires var list := ranked[dropped..];
      && |Of(list[..m], groups[g].provider)| < |Of(list, groups[g].provider)|
      && |Of(list[..m], groups[h].provider)| < |Of(list, groups[h].provider)|
    ensures var list := ranked[dropped..];
      -1 <= |Of(list[..m], groups[g].provider)| - |Of(list[..m], groups[h].provider)| <= 1
  {
    var e := dropped + m;
    assert ranked[dropped..][..m] == ranked[dropped..e];
    assert ranked[dropped..|ranked|] == ranked[dropped..] && ranked[..|ranked|] == ranked;
    forall x | x in {g, h} ensures Used(ranked, e, groups[x].provider) < |groups[x].members| {
      UsedGrows(ranked, dropped, e, groups[x].provider);
      UsedGrows(ranked, dropped, |ranked|, groups[x].provider);
      KeepsEachOrder(ranked, groups, x);
    }
    StretchIsFair(ranked, groups, dropped, e, g, h);
  }

  lemma {:induction false} KeptWithin(cs: seq<Candidate>, fits: seq<bool>)
    requires |fits| == |cs|
    ensures multiset(Kept(cs, fits)) <= multiset(cs)
  {
    if cs != [] {
      var n := |cs| - 1;
      KeptWithin(cs[..n], fits[..n]);
      assert cs == cs[..n] + [cs[n]];
    }
  }

  /**
   The list introduces nothing and repeats nothing, and each provider's part of it is a tail of that
   provider's order.
   */
  lemma ListIsSound(cs: seq<Candidate>, fits: seq<bool>, ranked: seq<Candidate>, groups: seq<Group>, dropped: nat,
                    g: nat)
    requires |fits| == |cs| && Splits(groups, Kept(cs, fits)) && IsRoundRobin(ranked, groups) && dropped <= |ranked|
    ensures multiset(ranked[dropped..]) <= multiset(cs)
    ensures g < |groups| ==>
      var p := groups[g].provider;
      Of(ranked[..dropped], p) + Of(ranked[dropped..], p) == Of(Kept(cs, fits), p)
  {
    IsPermutation(ranked, groups, Kept(cs, fits));
    KeptWithin(cs, fits);
    assert ranked == ranked[..dropped] + ranked[dropped..];
    if g < |groups| {
      KeepsEachOrder(ranked, groups, g);
      OfConcat(ranked[..dropped], ranked[dropped..], groups[g].provider);
    }
  }
}
