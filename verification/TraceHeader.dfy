/**
 The route-trace header and its trimming to the length limit. All text in the header is sanitised, so
 characters and bytes coincide.
 */
module TraceHeader {
  import opened Base
  import opened Text
  import opened TraceText

  const MAX_HEADER: nat := 512
  const MAX_RULE_ID: nat := 64
  const TRUNCATED := ";trunc=1"

  datatype Failed = Failed(model: string, status: int, kind: string)

  datatype Served = Served(hundredths: nat, index: int)

  datatype Trace = Trace(
    profile: string, savedBytes: int, outcome: string, served: Option<Served>, caps: seq<string>, ruleId: string,
    planned: nat, afterCaps: nat, eligible: nat, byBreaker: int, byQuota: int, attempts: seq<Failed>)

  // ---- values ----

  predicate Plain(c: char) {
    'a' <= c <= 'z' || 'A' <= c <= 'Z' || '0' <= c <= '9' || c == '.' || c == '_' || c == '/' || c == '+' || c == '-'
  }

  predicate AllPlain(s: string) {
    forall i | 0 <= i < |s| :: Plain(s[i])
  }

  function Sanitize(s: string): (r: string)
    ensures |r| == |s| && AllPlain(r)
    ensures forall i | 0 <= i < |s| :: if Plain(s[i]) then r[i] == s[i] else r[i] == '_'
    ensures AllPlain(s) ==> r == s
  {
    if s == "" then "" else [if Plain(s[0]) then s[0] else '_'] + Sanitize(s[1..])
  }

  function LastSlash(s: string): Option<nat> {
    if s == "" then None
    else if s[|s| - 1] == '/' then Some(|s| - 1)
    else LastSlash(s[..|s| - 1])
  }

  function TrimSuffix(s: string, suffix: string): string {
    if HasSuffix(s, suffix) then s[..|s| - |suffix|] else s
  }

  function ShortModel(model: string): (r: string)
    ensures AllPlain(r)
  {
    var slash := LastSlash(model);
    var name := if slash.Some? && slash.value + 1 < |model| then model[slash.value + 1..] else model;
    Sanitize(TrimSuffix(name, ":free"))
  }

  function Code(a: Failed): (r: string)
    ensures AllPlain(r)
  {
    if a.status > 0 then Decimal(a.status) else if a.kind != "" then Sanitize(a.kind) else "err"
  }

  /** One decimal of kibibytes, rounded to nearest and to even on a tie. */
  function Tenths(n: nat): nat {
    var q, r := 10 * n / 1024, 10 * n % 1024;
    if r > 512 || (r == 512 && q % 2 == 1) then q + 1 else q
  }

  function Compression(saved: int): (r: string)
    ensures AllPlain(r)
  {
    if saved <= 0 then "off"
    else if saved >= 1024 then "-" + Decimal(Tenths(saved) / 10) + "." + [Digit(Tenths(saved) % 10)] + "k"
    else "-" + Decimal(saved)
  }

  function Score(hundredths: nat): (r: string)
    ensures AllPlain(r)
  {
    Decimal(hundredths / 100) + "." + [Digit(hundredths / 10 % 10), Digit(hundredths % 10)]
  }

  function RuleId(id: string): (r: string)
    ensures AllPlain(r)
  {
    if |id| > MAX_RULE_ID then "" else Sanitize(id)
  }

  function Entry(a: Failed): string {
    ShortModel(a.model) + ":" + Code(a)
  }

  function Entries(attempts: seq<Failed>): (r: seq<string>)
    ensures |r| == |attempts| && forall i | 0 <= i < |r| :: r[i] == Entry(attempts[i])
  {
    seq(|attempts|, i requires 0 <= i < |attempts| => Entry(attempts[i]))
  }

  // ---- fields ----

  datatype Field = Field(key: string, value: string)

  function Written(f: Field): string {
    f.key + "=" + f.value
  }

  function WrittenAll(fs: seq<Field>): (r: seq<string>)
    ensures |r| == |fs| && forall i | 0 <= i < |r| :: r[i] == Written(fs[i])
  {
    seq(|fs|, i requires 0 <= i < |fs| => Written(fs[i]))
  }

  function When(present: bool, key: string, value: string): seq<Field> {
    if present then [Field(key, value)] else []
  }

  /** Fields that trimming never touches. */
  function Protected(t: Trace): seq<Field> {
    [Field("p", Sanitize(t.profile)), Field("cmp", Compression(t.savedBytes))]
    + When(t.outcome != "" && t.outcome != "served", "o", Sanitize(t.outcome))
    + When(t.served.Some?, "s", if t.served.Some? then Score(t.served.value.hundredths) else "")
    + When(t.served.Some? && t.served.value.index > 1, "a",
           if t.served.Some? && t.served.value.index > 1 then Decimal(t.served.value.index) else "")
    + When(t.caps != [], "caps", Sanitize(Join(t.caps, '+')))
    + When(RuleId(t.ruleId) != "", "rid", RuleId(t.ruleId))
  }

  function Excluded(t: Trace): seq<Field> {
    When(t.byBreaker > 0, "brk", if t.byBreaker > 0 then Decimal(t.byBreaker) else "")
    + When(t.byQuota > 0, "q", if t.byQuota > 0 then Decimal(t.byQuota) else "")
  }

  /** The chain shape: droppable. */
  function Shape(t: Trace): seq<Field> {
    [Field("n", Decimal(t.planned) + "/" + Decimal(t.afterCaps) + "/" + Decimal(t.eligible))] + Excluded(t)
  }

  function Prev(attempts: seq<Failed>): seq<Field> {
    When(attempts != [], "prev", Join(Entries(attempts), ','))
  }

  // ---- rendering ----

  function Build(guarded: seq<string>, shape: string, brk: string, prev: seq<string>, withShape: bool): string {
    Join(guarded
      + (if withShape && shape != "" then [shape] else [])
      + (if withShape && brk != "" then [brk] else [])
      + (if prev != [] then ["prev=" + Join(prev, ',')] else []), ';')
  }

  ghost predicate FitsWith(guarded: seq<string>, shape: string, brk: string, prev: seq<string>, n: nat)
    requires n <= |prev|
  {
    |Build(guarded, shape, brk, prev[..n], true)| + |TRUNCATED| <= MAX_HEADER
  }

  /** How many entries of `prev` stay once something has to go; none when even the shape goes. */
  datatype Trimmed = Whole | Shortened(kept: nat) | Bare

  ghost predicate IsTrim(guarded: seq<string>, shape: string, brk: string, prev: seq<string>, how: Trimmed) {
    match how
    case Whole => |Build(guarded, shape, brk, prev, true)| <= MAX_HEADER
    case Shortened(n) =>
      && |Build(guarded, shape, brk, prev, true)| > MAX_HEADER
      && n < |prev| && FitsWith(guarded, shape, brk, prev, n)
      && forall m | n < m < |prev| :: !FitsWith(guarded, shape, brk, prev, m)
    case Bare =>
      && |Build(guarded, shape, brk, prev, true)| > MAX_HEADER
      && forall m | 0 <= m < |prev| :: !FitsWith(guarded, shape, brk, prev, m)
  }

  function Output(guarded: seq<string>, shape: string, brk: string, prev: seq<string>, how: Trimmed): string
    requires how.Shortened? ==> how.kept <= |prev|
  {
    match how
    case Whole => Build(guarded, shape, brk, prev, true)
    case Shortened(n) => Build(guarded, shape, brk, prev[..n], true) + TRUNCATED
    case Bare => Build(guarded, shape, brk, [], false) + TRUNCATED
  }

  method Render(guarded: seq<string>, shape: string, brk: string, prev: seq<string>)
    returns (out: string, ghost how: Trimmed)
    ensures IsTrim(guarded, shape, brk, prev, how) && out == Output(guarded, shape, brk, prev, how)
    ensures |Build(guarded, shape, brk, [], false)| + |TRUNCATED| <= MAX_HEADER ==> |out| <= MAX_HEADER
  {
    out := Build(guarded, shape, brk, prev, true);
    if |out| <= MAX_HEADER {
      return out, Whole;
    }
    var n := |prev| - 1;
    while n >= 0
      invariant -1 <= n < |prev|
      invariant forall m | n < m < |prev| :: !FitsWith(guarded, shape, brk, prev, m)
    {
      out := Build(guarded, shape, brk, prev[..n], true);
      if |out| + |TRUNCATED| <= MAX_HEADER {
        return out + TRUNCATED, Shortened(n);
      }
      n := n - 1;
    }
    out := Build(guarded, shape, brk, [], false);
    return out + TRUNCATED, Bare;
  }

  function BrkText(t: Trace): string {
    Join(WrittenAll(Excluded(t)), ';')
  }

  function NText(t: Trace): string {
    Written(Shape(t)[0])
  }

  function Guarded(t: Trace): seq<string> {
    ["v1"] + WrittenAll(Protected(t))
  }

  /** The header of a trace, assembled field by field. */
  method Header(t: Trace) returns (out: string, ghost how: Trimmed)
    ensures IsTrim(Guarded(t), NText(t), BrkText(t), Entries(t.attempts), how)
    ensures out == Output(Guarded(t), NText(t), BrkText(t), Entries(t.attempts), how)
    ensures |Build(Guarded(t), NText(t), BrkText(t), [], false)| + |TRUNCATED| <= MAX_HEADER ==> |out| <= MAX_HEADER
  {
    hide Guarded, BrkText, Entry, Build, FitsWith, Decimal;
    var guarded := GuardedFields(t);
    var shape := "n=" + (Decimal(t.planned) + "/" + Decimal(t.afterCaps) + "/" + Decimal(t.eligible));
    var brk := BrkField(t);
    var prev := [];
    for i := 0 to |t.attempts|
      invariant prev == Entries(t.attempts[..i])
    {
      prev := prev + [Entry(t.attempts[i])];
    }
    assert t.attempts[..|t.attempts|] == t.attempts;
    assert shape == NText(t);
    out, how := Render(guarded, shape, brk, prev);
  }

  method BrkField(t: Trace) returns (brk: string)
    ensures brk == BrkText(t)
  {
    brk := "";
    if t.byBreaker > 0 {
      brk := "brk=" + Decimal(t.byBreaker);
    }
    if t.byQuota > 0 {
      if brk != "" {
        brk := brk + ";";
      }
      brk := brk + ("q=" + Decimal(t.byQuota));
    }
    BrkIs(t);
  }

  lemma BrkIs(t: Trace)
    ensures BrkText(t) ==
      if t.byBreaker > 0 && t.byQuota > 0 then "brk=" + Decimal(t.byBreaker) + ";" + ("q=" + Decimal(t.byQuota))
      else if t.byBreaker > 0 then "brk=" + Decimal(t.byBreaker)
      else if t.byQuota > 0 then "q=" + Decimal(t.byQuota)
      else ""
  {
    hide Decimal;
    if t.byBreaker > 0 && t.byQuota > 0 {
      var b, q := Field("brk", Decimal(t.byBreaker)), Field("q", Decimal(t.byQuota));
      assert Excluded(t) == [b, q];
      JoinTwo(b, q);
    } else if t.byBreaker > 0 {
      assert Excluded(t) == [Field("brk", Decimal(t.byBreaker))];
      assert "brk=" + Decimal(t.byBreaker) == Written(Field("brk", Decimal(t.byBreaker)));
      assert WrittenAll(Excluded(t)) == ["brk=" + Decimal(t.byBreaker)];
    } else if t.byQuota > 0 {
      assert Excluded(t) == [Field("q", Decimal(t.byQuota))];
      assert "q=" + Decimal(t.byQuota) == Written(Field("q", Decimal(t.byQuota)));
      assert WrittenAll(Excluded(t)) == ["q=" + Decimal(t.byQuota)];
    }
  }

  lemma JoinTwo(a: Field, b: Field)
    ensures Join(WrittenAll([a, b]), ';') == Written(a) + ";" + Written(b)
  {
    assert WrittenAll([a, b]) == [Written(a), Written(b)];
    assert [Written(a), Written(b)][1..] == [Written(b)];
    assert Join([Written(b)], ';') == Written(b);
  }

  lemma WrittenMore(fs: seq<Field>, f: Field)
    ensures WrittenAll(fs + [f]) == WrittenAll(fs) + [Written(f)]
  {
  }

  method GuardedFields(t: Trace) returns (guarded: seq<string>)
    ensures guarded == Guarded(t)
  {
    hide *;
    ghost var fs := First(t);
    ghost var before := fs;
    guarded := ["v1", Written(Field("p", Sanitize(t.profile))), Written(Field("cmp", Compression(t.savedBytes)))];
    FirstWritten(t);
    if t.outcome != "" && t.outcome != "served" {
      guarded, fs := Add(guarded, "o", Sanitize(t.outcome), fs);
    }
    Added(before, fs, t.outcome != "" && t.outcome != "served", "o", Sanitize(t.outcome));
    before := fs;
    if t.served.Some? {
      guarded, fs := Add(guarded, "s", Score(t.served.value.hundredths), fs);
    }
    Added(before, fs, t.served.Some?, "s", if t.served.Some? then Score(t.served.value.hundredths) else "");
    before := fs;
    ghost var late := t.served.Some? && t.served.value.index > 1;
    if t.served.Some? {
      if t.served.value.index > 1 {
        guarded, fs := Add(guarded, "a", Decimal(t.served.value.index), fs);
      }
    }
    Added(before, fs, late, "a", if late then Decimal(t.served.value.index) else "");
    before := fs;
    if t.caps != [] {
      guarded, fs := Add(guarded, "caps", Sanitize(Join(t.caps, '+')), fs);
    }
    Added(before, fs, t.caps != [], "caps", Sanitize(Join(t.caps, '+')));
    before := fs;
    if RuleId(t.ruleId) != "" {
      guarded, fs := Add(guarded, "rid", RuleId(t.ruleId), fs);
    }
    Added(before, fs, RuleId(t.ruleId) != "", "rid", RuleId(t.ruleId));
    ProtectedIs(t);
    GuardedIs(t);
  }

  lemma Added(before: seq<Field>, fs: seq<Field>, present: bool, key: string, value: string)
    requires fs == if present then before + [Field(key, value)] else before
    ensures fs == before + When(present, key, value)
  {
  }

  function First(t: Trace): seq<Field> {
    [Field("p", Sanitize(t.profile)), Field("cmp", Compression(t.savedBytes))]
  }

  lemma FirstWritten(t: Trace)
    ensures ["v1", Written(Field("p", Sanitize(t.profile))), Written(Field("cmp", Compression(t.savedBytes)))]
      == ["v1"] + WrittenAll(First(t))
  {
  }

  lemma GuardedIs(t: Trace)
    ensures Guarded(t) == ["v1"] + WrittenAll(Protected(t))
  {
  }

  /** The protected fields as conditional appends. */
  lemma ProtectedIs(t: Trace)
    ensures var late := t.served.Some? && t.served.value.index > 1;
      Protected(t) ==
      First(t)
      + When(t.outcome != "" && t.outcome != "served", "o", Sanitize(t.outcome))
      + When(t.served.Some?, "s", if t.served.Some? then Score(t.served.value.hundredths) else "")
      + When(late, "a", if late then Decimal(t.served.value.index) else "")
      + When(t.caps != [], "caps", Sanitize(Join(t.caps, '+')))
      + When(RuleId(t.ruleId) != "", "rid", RuleId(t.ruleId))
  {
  }

  method Add(guarded: seq<string>, key: string, value: string, ghost fs: seq<Field>)
    returns (more: seq<string>, ghost gs: seq<Field>)
    requires guarded == ["v1"] + WrittenAll(fs)
    ensures gs == fs + [Field(key, value)] && more == ["v1"] + WrittenAll(gs)
  {
    more, gs := guarded + [key + "=" + value], fs + [Field(key, value)];
    WrittenMore(fs, Field(key, value));
  }
}
