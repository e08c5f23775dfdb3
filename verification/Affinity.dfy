/**
 Session affinity: a bounded, least-recently-used memory of the route that last served a session.
 The specification is a plain sequence, most recent first; the store keeps a table of list elements
 beside the list, and the two are shown to stay in step.
 */
module AffinitySpec {
  import opened Base
  import opened Text

  datatype Entry = Entry(key: string, provider: string, model: string, usedAt: int)

  predicate At(s: seq<Entry>, i: int, key: string) {
    0 <= i < |s| && s[i].key == key
  }

  ghost predicate OncePerKey(s: seq<Entry>) {
    forall i, j | 0 <= i < j < |s| :: s[i].key != s[j].key
  }

  function Find(s: seq<Entry>, key: string): (r: Option<nat>)
    ensures r.Some? ==> At(s, r.value, key)
    ensures r.None? ==> forall i | 0 <= i < |s| :: s[i].key != key
  {
    if s == [] then None
    else if s[|s| - 1].key == key then Some(|s| - 1)
    else Find(s[..|s| - 1], key)
  }

  function Drop<T>(s: seq<T>, i: nat): seq<T>
    requires i < |s|
  {
    s[..i] + s[i + 1..]
  }

  /** Looks a session up. Found and young enough, it becomes the most recent; too old, it goes. */
  function Preferred(s: seq<Entry>, key: string, now: int, ttl: int): (seq<Entry>, Option<Entry>) {
    var at := Find(s, key);
    if key == "" || at == None then (s, None)
    else if now - s[at.value].usedAt > ttl then (Drop(s, at.value), None)
    else
      var e := s[at.value].(usedAt := now);
      ([e] + Drop(s, at.value), Some(e))
  }

  predicate Pinnable(key: string, provider: string, model: string) {
    key != "" && provider != "" && Trim(model) != ""
  }

  /** Remembers a route; over capacity the last entry of the list goes. */
  function Pin(s: seq<Entry>, key: string, provider: string, model: string, now: int, cap: nat): seq<Entry> {
    var e := Entry(key, provider, model, now);
    var at := Find(s, key);
    if !Pinnable(key, provider, model) then s
    else if at.Some? then [e] + Drop(s, at.value)
    else if |s| + 1 <= cap then [e] + s
    else ([e] + s)[..|s|]
  }

  function Forget(s: seq<Entry>, key: string, provider: string, model: string): seq<Entry> {
    var at := Find(s, key);
    if key == "" || at == None then s
    else if s[at.value].provider == provider && s[at.value].model == model then Drop(s, at.value)
    else s
  }

  // ---- histories ----

  datatype Op =
    | Ask(key: string, now: int)
    | Serve(key: string, provider: string, model: string, now: int)
    | Fail(key: string, provider: string, model: string, now: int)

  function Apply(s: seq<Entry>, op: Op, ttl: int, cap: nat): seq<Entry> {
    match op
    case Ask(key, now) => Preferred(s, key, now, ttl).0
    case Serve(key, provider, model, now) => Pin(s, key, provider, model, now, cap)
    case Fail(key, provider, model, _) => Forget(s, key, provider, model)
  }

  function Run(s: seq<Entry>, ops: seq<Op>, ttl: int, cap: nat): seq<Entry> {
    if ops == [] then s else Apply(Run(s, ops[..|ops| - 1], ttl, cap), ops[|ops| - 1], ttl, cap)
  }

  ghost predicate Clocked(ops: seq<Op>) {
    forall i, j | 0 <= i < j < |ops| :: ops[i].now <= ops[j].now
  }

  /** Most recently used first, nothing later than `now`. */
  ghost predicate Recent(s: seq<Entry>, now: int) {
    && (forall i | 0 <= i < |s| :: s[i].usedAt <= now)
    && (forall i, j | 0 <= i < j < |s| :: s[i].usedAt >= s[j].usedAt)
  }

  lemma FindIs(s: seq<Entry>, i: nat)
    requires OncePerKey(s) && i < |s|
    ensures Find(s, s[i].key) == Some(i)
  {
  }

  lemma DropKeeps(s: seq<Entry>, i: nat, now: int)
    requires i < |s| && OncePerKey(s)
    ensures OncePerKey(Drop(s, i)) && forall j | 0 <= j < |Drop(s, i)| :: Drop(s, i)[j].key != s[i].key
    ensures Recent(s, now) ==> Recent(Drop(s, i), now)
  {
    var d := Drop(s, i);
    assert forall j | 0 <= j < |d| :: d[j] == if j < i then s[j] else s[j + 1];
  }

  lemma FrontKeeps(e: Entry, s: seq<Entry>, now: int)
    requires OncePerKey(s) && forall j | 0 <= j < |s| :: s[j].key != e.key
    ensures OncePerKey([e] + s)
    ensures Recent(s, now) && e.usedAt == now ==> Recent([e] + s, now)
  {
  }

  lemma PrefixKeeps(s: seq<Entry>, n: nat, now: int)
    requires n <= |s| && OncePerKey(s)
    ensures OncePerKey(s[..n]) && (Recent(s, now) ==> Recent(s[..n], now))
  {
  }

  lemma RecentLater(s: seq<Entry>, before: int, now: int)
    requires before <= now && Recent(s, before)
    ensures Recent(s, now)
  {
  }

  /** No operation duplicates a session, exceeds the capacity, or breaks the order of use. */
  lemma ApplyKeeps(s: seq<Entry>, op: Op, ttl: int, cap: nat, before: int)
    requires OncePerKey(s) && |s| <= cap && before <= op.now
    ensures OncePerKey(Apply(s, op, ttl, cap)) && |Apply(s, op, ttl, cap)| <= cap
    ensures Recent(s, before) ==> Recent(Apply(s, op, ttl, cap), op.now)
  {
    hide OncePerKey, Recent;
    if Recent(s, before) {
      RecentLater(s, before, op.now);
    }
    var at := Find(s, op.key);
    if at.Some? {
      DropKeeps(s, at.value, op.now);
      var rest := Drop(s, at.value);
      FrontKeeps(s[at.value].(usedAt := op.now), rest, op.now);
      if op.Serve? {
        FrontKeeps(Entry(op.key, op.provider, op.model, op.now), rest, op.now);
      }
    } else if op.Serve? {
      var e := Entry(op.key, op.provider, op.model, op.now);
      FrontKeeps(e, s, op.now);
      PrefixKeeps([e] + s, |s|, op.now);
    }
  }

  lemma {:induction false} RunKeeps(ops: seq<Op>, ttl: int, cap: nat, now: int)
    requires Clocked(ops) && (ops != [] ==> ops[|ops| - 1].now <= now)
    ensures OncePerKey(Run([], ops, ttl, cap)) && |Run([], ops, ttl, cap)| <= cap && Recent(Run([], ops, ttl, cap), now)
  {
    if ops != [] {
      var n := |ops| - 1;
      var before := if n > 0 then ops[n - 1].now else ops[n].now;
      RunKeeps(ops[..n], ttl, cap, before);
      var s := Run([], ops[..n], ttl, cap);
      ApplyKeeps(s, ops[n], ttl, cap, before);
      RecentLater(Run([], ops, ttl, cap), ops[n].now, now);
    }
  }

  /** A new session that does not fit displaces exactly one other: a least recently used one. */
  lemma EvictsTheOldest(s: seq<Entry>, key: string, provider: string, model: string, now: int, cap: nat, before: int)
    requires OncePerKey(s) && Recent(s, before) && |s| == cap && cap >= 1 && Pinnable(key, provider, model)
    requires forall i | 0 <= i < |s| :: s[i].key != key
    ensures Pin(s, key, provider, model, now, cap) == [Entry(key, provider, model, now)] + s[..cap - 1]
    ensures forall i | 0 <= i < cap :: s[cap - 1].usedAt <= s[i].usedAt
    ensures s[cap - 1].key != key
  {
    var e := Entry(key, provider, model, now);
    assert ([e] + s)[..|s|] == [e] + s[..cap - 1];
  }

  // ---- how long a session is remembered ----

  ghost function Touched(ops: seq<Op>): set<string> {
    set i | 0 <= i < |ops| :: ops[i].key
  }

  /** The session is still there, and only sessions touched since stand before it. */
  ghost predicate Remembers(s: seq<Entry>, e: Entry, since: set<string>) {
    exists p :: 0 <= p < |s| && s[p] == e && forall i | 0 <= i < p :: s[i].key in since
  }

  lemma {:induction false} DistinctCount(s: seq<Entry>, keys: set<string>)
    requires OncePerKey(s) && forall i | 0 <= i < |s| :: s[i].key in keys
    ensures |s| <= |keys|
  {
    if s != [] {
      var n := |s| - 1;
      DistinctCount(s[..n], keys - {s[n].key});
    }
  }

  lemma RemembersDrop(s: seq<Entry>, e: Entry, since: set<string>, i: nat)
    requires Remembers(s, e, since) && i < |s| && s[i].key != e.key
    ensures Remembers(Drop(s, i), e, since)
  {
    var p :| 0 <= p < |s| && s[p] == e && forall k | 0 <= k < p :: s[k].key in since;
    var d := Drop(s, i);
    var q := if i < p then p - 1 else p;
    assert d[q] == e;
    assert forall k | 0 <= k < |d| :: d[k] == if k < i then s[k] else s[k + 1];
  }

  lemma RemembersFront(x: Entry, s: seq<Entry>, e: Entry, since: set<string>)
    requires Remembers(s, e, since)
    ensures Remembers([x] + s, e, since + {x.key})
  {
    var p :| 0 <= p < |s| && s[p] == e && forall k | 0 <= k < p :: s[k].key in since;
    assert ([x] + s)[p + 1] == e;
  }

  lemma RemembersMore(s: seq<Entry>, e: Entry, since: set<string>, more: set<string>)
    requires Remembers(s, e, since) && since <= more
    ensures Remembers(s, e, more)
  {
    var p :| 0 <= p < |s| && s[p] == e && forall k | 0 <= k < p :: s[k].key in since;
    assert s[p] == e && forall k | 0 <= k < p :: s[k].key in more;
  }

  /** What stands before it are distinct sessions touched since, so it is not among the last. */
  lemma RemembersCut(s: seq<Entry>, e: Entry, since: set<string>, n: nat)
    requires OncePerKey(s) && Remembers(s, e, since) && |since| < n <= |s|
    ensures Remembers(s[..n], e, since)
  {
    var p :| 0 <= p < |s| && s[p] == e && forall k | 0 <= k < p :: s[k].key in since;
    PrefixKeeps(s, p, 0);
    DistinctCount(s[..p], since);
    assert s[..n][p] == e;
  }

  lemma ApplyRemembers(s: seq<Entry>, e: Entry, since: set<string>, op: Op, ttl: int, cap: nat)
    requires OncePerKey(s) && Remembers(s, e, since) && op.key != e.key && |s| <= cap
    requires |since + {op.key}| < cap
    ensures Remembers(Apply(s, op, ttl, cap), e, since + {op.key})
  {
    hide OncePerKey, Remembers;
    RemembersMore(s, e, since, since + {op.key});
    var at := Find(s, op.key);
    if at.Some? {
      var rest := Drop(s, at.value);
      RemembersDrop(s, e, since, at.value);
      RemembersMore(rest, e, since, since + {op.key});
      RemembersFront(s[at.value].(usedAt := op.now), rest, e, since);
      if op.Serve? {
        RemembersFront(Entry(op.key, op.provider, op.model, op.now), rest, e, since);
      }
    } else if op.Serve? {
      var x := Entry(op.key, op.provider, op.model, op.now);
      RemembersFront(x, s, e, since);
      FrontKeeps(x, s, op.now);
      if |s| == cap {
        RemembersCut([x] + s, e, since + {op.key}, |s|);
      }
    }
  }

  /**
   A session just used is remembered, unchanged, as long as fewer other sessions than the capacity have
   come up since, whatever was done with them.
   */
  lemma {:induction false} RecentSessionSurvives(s: seq<Entry>, ops: seq<Op>, ttl: int, cap: nat)
    requires s != [] && OncePerKey(s) && |s| <= cap
    requires forall i | 0 <= i < |ops| :: ops[i].key != s[0].key
    requires |Touched(ops)| < cap
    ensures OncePerKey(Run(s, ops, ttl, cap)) && |Run(s, ops, ttl, cap)| <= cap
    ensures Remembers(Run(s, ops, ttl, cap), s[0], Touched(ops))
    ensures Find(Run(s, ops, ttl, cap), s[0].key).Some?
  {
    if ops == [] {
      assert s[0] == s[0];
    } else {
      var n := |ops| - 1;
      var before := ops[..n];
      assert Touched(ops) == Touched(before) + {ops[n].key} by {
        assert ops == before + [ops[n]];
        forall i | 0 <= i < n ensures before[i].key in Touched(ops) {
          assert ops[i] == before[i];
        }
        assert ops[n].key in Touched(ops);
      }
      FewerTouched(Touched(before), Touched(ops));
      RecentSessionSurvives(s, before, ttl, cap);
      ApplyKeeps(Run(s, before, ttl, cap), ops[n], ttl, cap, ops[n].now);
      ApplyRemembers(Run(s, before, ttl, cap), s[0], Touched(before), ops[n], ttl, cap);
    }
  }

  lemma FewerTouched(a: set<string>, b: set<string>)
    requires a <= b
    ensures |a| <= |b|
  {
    assert |b - a| + |a| == |b - a + a|;
    assert b - a + a == b;
  }

  // ---- what a session is remembered for ----

  /**
   Serving a session puts the route that served it first, in place of any older one. The sessions behind it are the
   other ones as they were, in their order, all of them if there is room.
   */
  lemma PinRemembers(s: seq<Entry>, key: string, provider: string, model: string, now: int, cap: nat)
    requires OncePerKey(s) && |s| <= cap && cap >= 1
    ensures key == "" || provider == "" || Trim(model) == "" ==> Pin(s, key, provider, model, now, cap) == s
    ensures key != "" && provider != "" && Trim(model) != "" ==>
      var r := Pin(s, key, provider, model, now, cap);
      && r != [] && r[0] == Entry(key, provider, model, now)
      && (forall i | 0 < i < |r| :: r[i] in s && r[i].key != key)
      && (|s| < cap || (exists i :: At(s, i, key)) ==> forall i | 0 <= i < |s| && s[i].key != key :: s[i] in r)
  {
    hide Trim, OncePerKey;
    var e, at := Entry(key, provider, model, now), Find(s, key);
    if Pinnable(key, provider, model) {
      if at.Some? {
        DropMembers(s, at.value);
        FrontMembers(e, Drop(s, at.value));
      } else {
        FrontMembers(e, s);
      }
    }
  }

  lemma DropMembers(s: seq<Entry>, i: nat)
    requires OncePerKey(s) && i < |s|
    ensures forall e | e in Drop(s, i) :: e in s && e.key != s[i].key
    ensures forall j | 0 <= j < |s| && s[j].key != s[i].key :: s[j] in Drop(s, i)
  {
    var d := Drop(s, i);
    assert forall j | 0 <= j < |d| :: d[j] == if j < i then s[j] else s[j + 1];
    forall j | 0 <= j < |s| && s[j].key != s[i].key ensures s[j] in d {
      assert d[if j < i then j else j - 1] == s[j];
    }
  }

  lemma FrontMembers(e: Entry, s: seq<Entry>)
    ensures forall i | 0 < i < |[e] + s| :: ([e] + s)[i] in s
    ensures forall x | x in s :: x in [e] + s
  {
  }

  /** Asking for a session that is there answers its route while it is young enough, and forgets it otherwise. */
  lemma AskAnswers(s: seq<Entry>, key: string, now: int, ttl: int, i: nat)
    requires OncePerKey(s) && key != "" && At(s, i, key)
    ensures var (r, answer) := Preferred(s, key, now, ttl);
      && (now - s[i].usedAt <= ttl ==> answer == Some(s[i].(usedAt := now)) && r != [] && r[0] == answer.value)
      && (now - s[i].usedAt > ttl ==> answer == None && forall j | 0 <= j < |r| :: r[j].key != key)
  {
    FindIs(s, i);
    DropKeeps(s, i, now);
  }

  /**
   A session asks for the route that last served it and is given it, if it comes back in time and fewer other sessions
   than the capacity came up meanwhile, whatever was done with them. If it comes back too late it is given none.
   */
  lemma LastRouteIsAnswered(s: seq<Entry>, key: string, provider: string, model: string, at: int, ops: seq<Op>,
                            now: int,
                            ttl: int, cap: nat)
    requires OncePerKey(s) && |s| <= cap && Pinnable(key, provider, model)
    requires (forall i | 0 <= i < |ops| :: ops[i].key != key) && |Touched(ops)| < cap
    ensures var answer := Preferred(Run(Pin(s, key, provider, model, at, cap), ops, ttl, cap), key, now, ttl).1;
      && (now - at <= ttl ==> answer == Some(Entry(key, provider, model, now)))
      && (now - at > ttl ==> answer == None)
  {
    PinRemembers(s, key, provider, model, at, cap);
    ApplyKeeps(s, Serve(key, provider, model, at), ttl, cap, at);
    var pinned := Pin(s, key, provider, model, at, cap);
    RecentSessionSurvives(pinned, ops, ttl, cap);
    var r := Run(pinned, ops, ttl, cap);
    var p :| 0 <= p < |r| && r[p] == pinned[0];
    AskAnswers(r, key, now, ttl, p);
  }

  /** A failure forgets the session exactly if it is remembered for the route that failed, and no other session. */
  lemma ForgetForgets(s: seq<Entry>, key: string, provider: string, model: string, i: nat)
    requires OncePerKey(s) && i < |s|
    ensures s[i] in Forget(s, key, provider, model) <==>
      !(key != "" && s[i].key == key && s[i].provider == provider && s[i].model == model)
  {
    FindIs(s, i);
    var at := Find(s, key);
    if key != "" && at.Some? && s[at.value].provider == provider && s[at.value].model == model {
      var d := Drop(s, at.value);
      DropKeeps(s, at.value, 0);
      if i != at.value {
        assert d[if i < at.value then i else i - 1] == s[i];
      }
    }
  }

  // ---- promotion ----

  /** Moves the candidate at place `i` to the front. */
  function Promoted<T>(s: seq<T>, i: nat): seq<T>
    requires i < |s|
  {
    [s[i]] + Drop(s, i)
  }

  lemma PromotionIsPermutation<T>(s: seq<T>, i: nat)
    requires i < |s|
    ensures multiset(Promoted(s, i)) == multiset(s)
    ensures Promoted(s, i)[0] == s[i] && forall j | 0 <= j < |s| - 1 :: Promoted(s, i)[j + 1] == Drop(s, i)[j]
  {
    assert s == s[..i] + [s[i]] + s[i + 1..];
  }
}

/** The store as it is kept: a table of list elements and the list of those elements. */
module AffinityStore {
  import opened Base
  import opened AffinitySpec
  import opened Text

  const DAY := 24 * 3600 * 1_000_000_000
  const DEFAULT_CAPACITY: nat := 8192

  class Element {
    var entry: Entry

    constructor (entry: Entry)
      ensures this.entry == entry
    {
      this.entry := entry;
    }
  }

  ghost predicate Single(list: seq<Element>) {
    forall i, j | 0 <= i < j < |list| :: list[i] != list[j]
  }

  /** The entries on the list, most recent first. */
  ghost function Contents(list: seq<Element>): (s: seq<Entry>)
    reads list
    ensures |s| == |list| && forall i | 0 <= i < |s| :: s[i] == list[i].entry
  {
    seq(|list|, i requires 0 <= i < |list| reads list => list[i].entry)
  }

  /** The table leads from each key to its own element on the list, and to nothing else. */
  ghost predicate InStep(entries: map<string, Element>, list: seq<Element>)
    reads list
  {
    && (forall i | 0 <= i < |list| :: list[i].entry.key in entries && entries[list[i].entry.key] == list[i])
    && (forall k | k in entries :: entries[k] in list && entries[k].entry.key == k)
  }

  lemma InStepDistinct(entries: map<string, Element>, list: seq<Element>)
    requires InStep(entries, list) && Single(list)
    ensures OncePerKey(Contents(list))
  {
  }

  lemma ElementOf(entries: map<string, Element>, list: seq<Element>, i: nat)
    requires InStep(entries, list) && i < |list|
    ensures list[i].entry.key in entries && entries[list[i].entry.key] == list[i]
  {
  }

  lemma DropAt<T>(s: seq<T>, i: nat)
    requires i < |s|
    ensures |Drop(s, i)| == |s| - 1
    ensures forall j | 0 <= j < |s| - 1 :: Drop(s, i)[j] == s[if j < i then j else j + 1]
  {
  }

  lemma DropSingle(list: seq<Element>, i: nat)
    requires Single(list) && i < |list|
    ensures Single(Drop(list, i)) && list[i] !in Drop(list, i)
  {
    DropAt(list, i);
    hide Drop;
  }

  lemma DropFound(list: seq<Element>, i: nat, x: Element)
    requires i < |list|
    ensures x in Drop(list, i) ==> x in list
    ensures x in list && x != list[i] ==> x in Drop(list, i)
  {
    if x in list && x != list[i] {
      var j :| 0 <= j < |list| && list[j] == x;
      assert Drop(list, i)[if j < i then j else j - 1] == x;
    }
  }

  lemma DropContents(list: seq<Element>, i: nat)
    requires i < |list|
    ensures Contents(Drop(list, i)) == Drop(Contents(list), i)
  {
    DropAt(list, i);
    DropAt(Contents(list), i);
  }

  lemma DropInStep(entries: map<string, Element>, list: seq<Element>, i: nat)
    requires InStep(entries, list) && Single(list) && i < |list|
    ensures InStep(entries - {list[i].entry.key}, Drop(list, i)) && Single(Drop(list, i))
    ensures Contents(Drop(list, i)) == Drop(Contents(list), i)
    ensures list[i] !in Drop(list, i) && forall x | x in Drop(list, i) :: x in list
  {
    DropSingle(list, i);
    DropContents(list, i);
    forall x: Element ensures (x in Drop(list, i) ==> x in list) && (x in list && x != list[i] ==> x in Drop(list, i)) {
      DropFound(list, i, x);
    }
    hide Drop, Single, Contents;
    var d := Drop(list, i);
    forall j | 0 <= j < |d|
      ensures d[j].entry.key in entries - {list[i].entry.key} && entries[d[j].entry.key] == d[j]
    {
      assert d[j] in d;
      var m :| 0 <= m < |list| && list[m] == d[j];
    }
    forall k | k in entries && k != list[i].entry.key ensures entries[k] in d && entries[k].entry.key == k {
      assert entries[k] in list;
    }
  }

  lemma FrontContents(list: seq<Element>, e: Element)
    ensures Contents([e] + list) == [e.entry] + Contents(list)
  {
  }

  lemma FrontSingle(list: seq<Element>, e: Element)
    requires Single(list) && e !in list
    ensures Single([e] + list)
  {
  }

  lemma FrontInStep(entries: map<string, Element>, list: seq<Element>, e: Element)
    requires InStep(entries, list) && Single(list) && e !in list && e.entry.key !in entries
    ensures InStep(entries[e.entry.key := e], [e] + list) && Single([e] + list)
    ensures Contents([e] + list) == [e.entry] + Contents(list)
  {
    hide Single, Contents;
    FrontContents(list, e);
    FrontSingle(list, e);
    var all := [e] + list;
    forall k | k in entries ensures entries[k] in all {
      assert entries[k] in list;
    }
    assert all[0] == e;
  }

  /** The place of an element, which is the place of its key. */
  method PlaceOf(list: seq<Element>, e: Element) returns (i: nat)
    requires e in list && Single(list) && OncePerKey(Contents(list))
    ensures i < |list| && list[i] == e && Find(Contents(list), e.entry.key) == Some(i)
  {
    i := 0;
    while list[i] != e
      invariant i < |list| && e !in list[..i]
      decreases |list| - i
    {
      i := i + 1;
    }
    FindIs(Contents(list), i);
  }

  class Store {
    const ttl: int
    const cap: nat
    var entries: map<string, Element>
    var recency: seq<Element>

    ghost predicate Valid()
      reads this, recency
    {
      Single(recency) && InStep(entries, recency) && |recency| <= cap && cap >= 1
    }

    constructor (ttl: int, cap: int)
      ensures Valid() && Contents(recency) == []
      ensures this.ttl == if ttl <= 0 then DAY else ttl
      ensures this.cap == if cap < 1 then DEFAULT_CAPACITY else cap
    {
      this.ttl := if ttl <= 0 then DAY else ttl;
      this.cap := if cap < 1 then DEFAULT_CAPACITY else cap;
      entries, recency := map[], [];
    }

    /** Both structures always hold the same keys, as many, and never more than the capacity. */
    lemma SameKeys()
      requires Valid()
      ensures entries.Keys == set e | e in Contents(recency) :: e.key
      ensures |entries| == |recency| <= cap
    {
      SizesAgree(entries, recency);
    }

    /** Takes an element off the list and out of the table. */
    method Remove(e: Element)
      requires Valid() && e in recency
      modifies this
      ensures Valid() && Find(old(Contents(recency)), e.entry.key).Some?
      ensures Contents(recency) == Drop(old(Contents(recency)), Find(old(Contents(recency)), e.entry.key).value)
      ensures forall x | x in recency :: x in old(recency)
    {
      hide InStep, Single, Contents;
      InStepDistinct(entries, recency);
      var i := PlaceOf(recency, e);
      DropInStep(entries, recency, i);
      entries := entries - {e.entry.key};
      recency := Drop(recency, i);
    }

    /** Gives an element a new entry under the same key and moves it to the front. */
    method Refresh(e: Element, entry: Entry)
      requires Valid() && e in recency && entry.key == e.entry.key
      modifies this`recency, e
      ensures Valid() && Find(old(Contents(recency)), entry.key).Some?
      ensures Contents(recency) == [entry] + Drop(old(Contents(recency)), Find(old(Contents(recency)), entry.key).value)
      ensures forall x | x in recency :: x in old(recency)
    {
      hide InStep, Single, Contents;
      InStepDistinct(entries, recency);
      var i := PlaceOf(recency, e);
      DropInStep(entries, recency, i);
      var rest := Drop(recency, i);
      assert entries[entry.key] == e by { ElementOf(entries, recency, i); }
      e.entry := entry;
      recency := [e] + rest;
      FrontInStep(entries - {entry.key}, rest, e);
      assert (entries - {entry.key})[entry.key := e] == entries;
    }

    lemma Lookup(key: string)
      requires Valid()
      ensures key in entries <==> Find(Contents(recency), key).Some?
      ensures key in entries ==> entries[key] in recency && entries[key].entry.key == key
      ensures key in entries ==>
        Contents(recency)[Find(Contents(recency), key).value] == entries[key].entry
    {
      InStepDistinct(entries, recency);
      if key in entries {
        var i :| 0 <= i < |recency| && recency[i] == entries[key];
        FindIs(Contents(recency), i);
      }
    }

    method Preferred(key: string, now: int) returns (route: Option<Entry>)
      requires Valid()
      modifies this, recency
      ensures Valid() && (Contents(recency), route) == AffinitySpec.Preferred(old(Contents(recency)), key, now, ttl)
    {
      hide InStep, Single, Contents;
      if key == "" {
        return None;
      }
      Lookup(key);
      if key !in entries {
        return None;
      }
      var element := entries[key];
      var entry := element.entry;
      if now - entry.usedAt > ttl {
        Remove(element);
        return None;
      }
      Refresh(element, entry.(usedAt := now));
      return Some(entry.(usedAt := now));
    }

    method Forget(key: string, provider: string, model: string)
      requires Valid()
      modifies this
      ensures Valid() && Contents(recency) == AffinitySpec.Forget(old(Contents(recency)), key, provider, model)
    {
      hide InStep, Single, Contents;
      if key == "" {
        return;
      }
      Lookup(key);
      if key !in entries {
        return;
      }
      var entry := entries[key].entry;
      if entry.provider == provider && entry.model == model {
        Remove(entries[key]);
      }
    }

    method Pin(key: string, provider: string, model: string, now: int)
      requires Valid()
      modifies this, recency
      ensures Valid() && Contents(recency) == AffinitySpec.Pin(old(Contents(recency)), key, provider, model, now, cap)
    {
      hide InStep, Single, Contents;
      if key == "" || provider == "" || Trim(model) == "" {
        return;
      }
      Lookup(key);
      if key in entries {
        Refresh(entries[key], Entry(key, provider, model, now));
        return;
      }
      PushNew(Entry(key, provider, model, now));
    }

    /** A new element goes to the front; if that is one too many, the last one goes. */
    method PushNew(entry: Entry)
      requires Valid() && entry.key !in entries
      modifies this
      ensures Valid()
      ensures Contents(recency) == if |old(recency)| + 1 <= cap then [entry] + old(Contents(recency))
                                   else ([entry] + old(Contents(recency)))[..|old(recency)|]
    {
      hide InStep, Single, Contents;
      var element := new Element(entry);
      FrontInStep(entries, recency, element);
      recency := [element] + recency;
      entries := entries[entry.key := element];
      SizesAgree(entries, recency);
      if |entries| <= cap {
        return;
      }
      EvictLast();
    }

    /** Takes the last element off the list and its key out of the table. */
    method EvictLast()
      requires Single(recency) && InStep(entries, recency) && |recency| == cap + 1 && cap >= 1
      modifies this
      ensures Valid() && Contents(recency) == old(Contents(recency))[..cap]
    {
      hide InStep, Single, Contents;
      var oldest := recency[cap];
      DropInStep(entries, recency, cap);
      assert Drop(recency, cap) == recency[..cap];
      assert Drop(Contents(recency), cap) == Contents(recency)[..cap];
      entries := entries - {oldest.entry.key};
      recency := recency[..cap];
    }
  }

  lemma SizesAgree(entries: map<string, Element>, list: seq<Element>)
    requires InStep(entries, list) && Single(list)
    ensures |entries| == |list|
    ensures entries.Keys == set e | e in Contents(list) :: e.key
  {
    var s := Contents(list);
    InStepDistinct(entries, list);
    assert entries.Keys == set e | e in s :: e.key by {
      forall k | k in entries ensures exists e :: e in s && e.key == k {
        var i :| 0 <= i < |list| && list[i] == entries[k];
        assert s[i] in s;
      }
    }
    KeyCount(s);
  }

  lemma {:induction false} KeyCount(s: seq<Entry>)
    requires OncePerKey(s)
    ensures |set e | e in s :: e.key| == |s|
  {
    if s != [] {
      var n := |s| - 1;
      KeyCount(s[..n]);
      assert s == s[..n] + [s[n]];
      assert (set e | e in s :: e.key) == (set e | e in s[..n] :: e.key) + {s[n].key};
    }
  }

  predicate FirstMatch<T>(s: seq<T>, matches: T -> bool, i: nat)
    requires i < |s|
  {
    matches(s[i]) && forall j | 0 <= j < i :: !matches(s[j])
  }

  /** Moves the session's remembered route to the front of the candidates, by shifting a copy in place. */
  method Promote<T(0)>(attempts: seq<T>, matches: T -> bool) returns (out: seq<T>)
    ensures forall i | 0 <= i < |attempts| && FirstMatch(attempts, matches, i) ::
      out == Promoted(attempts, i)
    ensures (forall i | 0 <= i < |attempts| :: !matches(attempts[i])) ==> out == attempts
    ensures multiset(out) == multiset(attempts)
  {
    for i := 0 to |attempts|
      invariant forall j | 0 <= j < i :: !matches(attempts[j])
    {
      if matches(attempts[i]) {
        PromotionIsPermutation(attempts, i);
        if i == 0 {
          assert Promoted(attempts, 0) == attempts;
          return attempts;
        }
        out := Shift(attempts, i);
        return;
      }
    }
    out := attempts;
  }

  lemma PromotedAt<T>(s: seq<T>, i: nat)
    requires i < |s|
    ensures |Promoted(s, i)| == |s| && Promoted(s, i)[0] == s[i]
    ensures forall k | 0 < k <= i :: Promoted(s, i)[k] == s[k - 1]
    ensures forall k | i < k < |s| :: Promoted(s, i)[k] == s[k]
  {
  }

  /** Copies the candidates, moves those before place `i` one place down, and puts that one in front. */
  method Shift<T(0)>(attempts: seq<T>, i: nat) returns (out: seq<T>)
    requires i < |attempts|
    ensures out == Promoted(attempts, i)
  {
    var a := new T[|attempts|](k requires 0 <= k < |attempts| => attempts[k]);
    var m := i;
    while m > 0
      invariant 0 <= m <= i
      invariant forall k | 0 <= k <= m :: a[k] == attempts[k]
      invariant forall k | m < k <= i :: a[k] == attempts[k - 1]
      invariant forall k | i < k < |attempts| :: a[k] == attempts[k]
    {
      a[m] := a[m - 1];
      m := m - 1;
    }
    a[0] := attempts[i];
    out := a[..];
    PromotedAt(attempts, i);
    hide Promoted;
    assert forall k | 0 <= k < |out| :: out[k] == a[k];
  }
}
