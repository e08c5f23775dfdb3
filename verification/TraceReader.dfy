/** The chat client's reader of the route header, and why it reads back exactly what was written. */
module TraceReader {
  import opened Base
  import opened Text
  import opened TraceText
  import opened TraceHeader

  // ---- the reader ----

  /** The table after reading the parts in order: nameless parts are skipped and a later name wins. */
  function Fields(parts: seq<string>): map<string, string> {
    if parts == [] then map[]
    else
      var before := Fields(parts[..|parts| - 1]);
      match Cut(Trim(parts[|parts| - 1]), '=')
      case None => before
      case Some((key, value)) => before[key := value]
  }

  method ReadFields(route: string) returns (fields: map<string, string>)
    ensures fields == Fields(Split(route, ';'))
  {
    fields := map[];
    var parts := Split(route, ';');
    for i := 0 to |parts|
      invariant fields == Fields(parts[..i])
    {
      assert parts[..i + 1][..i] == parts[..i];
      var part := Trim(parts[i]);
      if part == "" {
        continue;
      }
      var pair := Cut(part, '=');
      if pair.None? {
        continue;
      }
      fields := fields[pair.value.0 := pair.value.1];
    }
    assert parts[..|parts|] == parts;
  }

  /** The part says this about the name. */
  ghost predicate SaysOf(part: string, key: string, value: string) {
    Cut(Trim(part), '=') == Some((key, value))
  }

  ghost predicate SilentOn(part: string, key: string) {
    forall value :: !SaysOf(part, key, value)
  }

  /** The last part that has the name says this about it. */
  ghost predicate LastSays(parts: seq<string>, key: string, i: nat, value: string) {
    && i < |parts| && SaysOf(parts[i], key, value)
    && forall j | i < j < |parts| :: SilentOn(parts[j], key)
  }

  /** A name is in the table exactly if some part has it, and then with what the last such part says. */
  lemma {:induction false} FieldsMean(parts: seq<string>, key: string)
    ensures key in Fields(parts) <==> exists i: nat, value :: LastSays(parts, key, i, value)
    ensures forall i: nat, value | LastSays(parts, key, i, value) :: key in Fields(parts) && Fields(parts)[key] == value
  {
    hide Trim, Cut;
    if parts != [] {
      var n := |parts| - 1;
      FieldsMean(parts[..n], key);
      if value :| SaysOf(parts[n], key, value) {
        assert LastSays(parts, key, n, value);
        assert !SilentOn(parts[n], key);
      } else {
        forall i: nat, value ensures LastSays(parts, key, i, value) <==> LastSays(parts[..n], key, i, value) {
          OneMorePart(parts, key, i, value);
        }
        assert key in Fields(parts) <==> key in Fields(parts[..n]) by { SilentPart(parts, key); }
        SilentPart(parts, key);
      }
    }
  }

  lemma OneMorePart(parts: seq<string>, key: string, i: nat, value: string)
    requires parts != [] && SilentOn(parts[|parts| - 1], key)
    ensures LastSays(parts, key, i, value) <==> LastSays(parts[..|parts| - 1], key, i, value)
  {
    var n := |parts| - 1;
    assert forall j | 0 <= j < n :: parts[..n][j] == parts[j];
    hide SaysOf, SilentOn;
    if LastSays(parts[..n], key, i, value) {
      forall j | i < j < |parts| ensures SilentOn(parts[j], key) {
        assert j < n ==> parts[..n][j] == parts[j];
      }
    }
  }

  lemma SilentPart(parts: seq<string>, key: string)
    requires parts != [] && SilentOn(parts[|parts| - 1], key)
    ensures var before := Fields(parts[..|parts| - 1]);
      (key in Fields(parts) <==> key in before) && (key in before ==> Fields(parts)[key] == before[key])
  {
    hide Trim, Cut;
    match Cut(Trim(parts[|parts| - 1]), '=')
    case None =>
    case Some((k, v)) => assert SaysOf(parts[|parts| - 1], k, v);
  }

  function Phrase(part: string): string {
    match Cut(part, ':')
    case None => part
    case Some((model, code)) => model + " (" + code + ")"
  }

  /** The failed attempts in words, one phrase each. */
  method ReadPrev(prev: string) returns (phrases: seq<string>)
    ensures var parts := Split(prev, ',');
      |phrases| == |parts| && forall i | 0 <= i < |parts| :: phrases[i] == Phrase(parts[i])
  {
    var parts := Split(prev, ',');
    phrases := [];
    for i := 0 to |parts|
      invariant |phrases| == i && forall j | 0 <= j < i :: phrases[j] == Phrase(parts[j])
    {
      var pair := Cut(parts[i], ':');
      if pair.None? {
        phrases := phrases + [parts[i]];
        continue;
      }
      phrases := phrases + [pair.value.0 + " (" + pair.value.1 + ")"];
    }
  }

  // ---- what was written ----

  /** The attempts still listed after trimming. */
  function Listed(t: Trace, how: Trimmed): seq<Failed> {
    match how
    case Whole => t.attempts
    case Shortened(n) => if n <= |t.attempts| then t.attempts[..n] else t.attempts
    case Bare => []
  }

  /** Every field of the final header, in order. */
  function Final(t: Trace, how: Trimmed): seq<Field> {
    Protected(t) + (if how.Bare? then [] else Shape(t)) + Prev(Listed(t, how)) + When(!how.Whole?, "trunc", "1")
  }

  lemma WrittenConcat(a: seq<Field>, b: seq<Field>)
    ensures WrittenAll(a + b) == WrittenAll(a) + WrittenAll(b)
  {
  }

  function PrevPart(prev: seq<string>): seq<string> {
    if prev != [] then ["prev=" + Join(prev, ',')] else []
  }

  lemma PrevWritten(attempts: seq<Failed>)
    ensures WrittenAll(Prev(attempts)) == PrevPart(Entries(attempts))
  {
    hide Entry, Join;
    if attempts != [] {
      var v := Join(Entries(attempts), ',');
      assert "prev=" + v == Written(Field("prev", v));
    }
  }

  lemma ShapeWritten(t: Trace, after: seq<string>)
    ensures NText(t) != ""
    ensures Join(Guarded(t) + [NText(t)] + (if BrkText(t) != "" then [BrkText(t)] else []) + after, ';')
      == Join(Guarded(t) + WrittenAll(Shape(t)) + after, ';')
  {
    hide Decimal, Protected;
    var n, ex := Shape(t)[0], Excluded(t);
    assert Shape(t) == [n] + ex;
    WrittenConcat([n], ex);
    assert WrittenAll([n]) == [NText(t)];
    var g := Guarded(t) + [NText(t)];
    assert g + WrittenAll(ex) == Guarded(t) + WrittenAll(Shape(t));
    BrkIs(t);
    if ex != [] {
      assert t.byBreaker > 0 || t.byQuota > 0;
      JoinSplice(g, WrittenAll(ex), after, ';');
    } else {
      assert g + [] + after == g + WrittenAll(ex) + after;
    }
  }

  lemma BuildWritten(t: Trace, attempts: seq<Failed>)
    ensures Build(Guarded(t), NText(t), BrkText(t), Entries(attempts), true)
      == Join(["v1"] + WrittenAll(Protected(t) + Shape(t) + Prev(attempts)), ';')
  {
    hide Protected, Shape, Prev, Entries, BrkText, Join;
    var after := PrevPart(Entries(attempts));
    ShapeWritten(t, after);
    PrevWritten(attempts);
    WrittenConcat(Protected(t) + Shape(t), Prev(attempts));
    WrittenConcat(Protected(t), Shape(t));
    assert Guarded(t) + WrittenAll(Shape(t)) + after
      == ["v1"] + WrittenAll(Protected(t) + Shape(t) + Prev(attempts));
  }

  lemma BareWritten(t: Trace)
    ensures Build(Guarded(t), NText(t), BrkText(t), [], false) == Join(["v1"] + WrittenAll(Protected(t)), ';')
  {
    assert Guarded(t) + [] + [] + [] == Guarded(t);
  }

  lemma TruncWritten(fs: seq<Field>)
    ensures Join(["v1"] + WrittenAll(fs), ';') + TRUNCATED
      == Join(["v1"] + WrittenAll(fs + [Field("trunc", "1")]), ';')
  {
    var parts, last := ["v1"] + WrittenAll(fs), ["trunc=1"];
    WrittenConcat(fs, [Field("trunc", "1")]);
    assert Written(Field("trunc", "1")) == last[0];
    assert WrittenAll([Field("trunc", "1")]) == last;
    assert ["v1"] + WrittenAll(fs + [Field("trunc", "1")]) == parts + last;
    JoinAppend(parts, last, ';');
  }

  /** Whatever was trimmed, the header is the plain join of its final fields. */
  lemma HeaderWritten(t: Trace, how: Trimmed)
    requires how.Shortened? ==> how.kept <= |t.attempts|
    ensures Output(Guarded(t), NText(t), BrkText(t), Entries(t.attempts), how)
      == Join(["v1"] + WrittenAll(Final(t, how)), ';')
  {
    hide Build, Protected, Shape, Prev, Join, Guarded, NText, BrkText, WrittenAll;
    match how
    case Whole =>
      BuildWritten(t, t.attempts);
      assert Final(t, how) == Protected(t) + Shape(t) + Prev(t.attempts);
    case Shortened(n) =>
      BuildWritten(t, t.attempts[..n]);
      assert Entries(t.attempts)[..n] == Entries(t.attempts[..n]);
      TruncWritten(Protected(t) + Shape(t) + Prev(t.attempts[..n]));
    case Bare =>
      BareWritten(t);
      TruncWritten(Protected(t));
      assert Prev([]) == [] by { NoPrev(); }
      assert Final(t, how) == Protected(t) + [Field("trunc", "1")];
  }

  lemma NoPrev()
    ensures Prev([]) == []
  {
  }

  // ---- reading back ----

  /** Visible ASCII without the field separator. */
  predicate Tidy(s: string) {
    forall i | 0 <= i < |s| :: '!' <= s[i] <= '~' && s[i] != ';'
  }

  predicate Clean(f: Field) {
    Tidy(f.key) && Tidy(f.value) && '=' !in f.key
  }

  predicate AllClean(fs: seq<Field>) {
    forall i | 0 <= i < |fs| :: Clean(fs[i])
  }

  lemma CleanReads(f: Field)
    requires Clean(f)
    ensures ';' !in Written(f) && Cut(Trim(Written(f)), '=') == Some((f.key, f.value))
  {
    var w := Written(f);
    forall i | 0 <= i < |w| ensures '!' <= w[i] <= '~' && w[i] != ';' {
      if i < |f.key| {
        assert w[i] == f.key[i];
      } else if i > |f.key| {
        assert w[i] == f.value[i - |f.key| - 1];
      }
    }
    TrimSolid(w);
    CutFirst(f.key, f.value, '=');
  }

  function Table(fs: seq<Field>): map<string, string> {
    if fs == [] then map[]
    else Table(fs[..|fs| - 1])[fs[|fs| - 1].key := fs[|fs| - 1].value]
  }

  lemma FieldsMore(parts: seq<string>, f: Field)
    requires Clean(f)
    ensures Fields(parts + [Written(f)]) == Fields(parts)[f.key := f.value]
  {
    hide Clean, Written, Trim, Cut;
    CleanReads(f);
    var more := parts + [Written(f)];
    assert more[..|more| - 1] == parts;
  }

  lemma FieldsStart()
    ensures Fields(["v1"]) == map[]
  {
    TrimSolid("v1");
    CutNone("v1", '=');
    assert ["v1"][..0] == [];
  }

  lemma {:induction false} FieldsRead(fs: seq<Field>)
    requires AllClean(fs)
    ensures Fields(["v1"] + WrittenAll(fs)) == Table(fs)
  {
    hide Fields, Clean, Written;
    if fs == [] {
      assert ["v1"] + WrittenAll(fs) == ["v1"];
      FieldsStart();
    } else {
      var n := |fs| - 1;
      FieldsRead(fs[..n]);
      FieldsMore(["v1"] + WrittenAll(fs[..n]), fs[n]);
      assert ["v1"] + WrittenAll(fs) == ["v1"] + WrittenAll(fs[..n]) + [Written(fs[n])];
    }
  }

  lemma HeaderReads(fs: seq<Field>)
    requires AllClean(fs)
    ensures Fields(Split(Join(["v1"] + WrittenAll(fs), ';'), ';')) == Table(fs)
  {
    var parts := ["v1"] + WrittenAll(fs);
    forall i | 0 <= i < |parts| ensures ';' !in parts[i] {
      if i > 0 {
        CleanReads(fs[i - 1]);
      }
    }
    SplitJoin(parts, ';');
    FieldsRead(fs);
  }

  // ---- every field is clean ----

  lemma PlainIsTidy(s: string)
    requires AllPlain(s)
    ensures Tidy(s)
  {
  }

  lemma WhenClean(present: bool, key: string, value: string)
    requires present ==> Clean(Field(key, value))
    ensures AllClean(When(present, key, value))
  {
  }

  lemma CleanConcat(a: seq<Field>, b: seq<Field>)
    requires AllClean(a) && AllClean(b)
    ensures AllClean(a + b)
  {
  }

  lemma PlainField(key: string, value: string)
    requires AllPlain(key) && AllPlain(value)
    ensures Clean(Field(key, value))
  {
    PlainIsTidy(key);
    PlainIsTidy(value);
    assert forall i | 0 <= i < |key| :: Plain(key[i]);
  }

  lemma PlainWhen(present: bool, key: string, value: string)
    requires AllPlain(key) && (present ==> AllPlain(value))
    ensures AllClean(When(present, key, value))
  {
    if present {
      PlainField(key, value);
    }
  }

  lemma {:induction false} JoinTidy(parts: seq<string>, sep: char)
    requires Tidy([sep]) && forall i | 0 <= i < |parts| :: Tidy(parts[i])
    ensures Tidy(Join(parts, sep))
  {
    assert '!' <= [sep][0] <= '~' && [sep][0] != ';';
    if |parts| > 1 {
      JoinTidy(parts[1..], sep);
    }
  }

  lemma EntryShape(a: Failed)
    ensures Tidy(Entry(a)) && ',' !in Entry(a) && ':' !in ShortModel(a.model)
  {
    var m, c := ShortModel(a.model), Code(a);
    assert AllPlain(m) && AllPlain(c);
    hide ShortModel, Code;
  }

  lemma PrevClean(attempts: seq<Failed>)
    ensures AllClean(Prev(attempts))
  {
    hide Entry;
    forall i | 0 <= i < |attempts| ensures Tidy(Entries(attempts)[i]) {
      EntryShape(attempts[i]);
    }
    JoinTidy(Entries(attempts), ',');
    hide Join;
    WhenClean(attempts != [], "prev", Join(Entries(attempts), ','));
  }

  lemma ProtectedClean(t: Trace)
    ensures AllClean(Protected(t))
  {
    hide Sanitize, Compression, Score, RuleId, Decimal, Join, When, AllPlain, AllClean;
    NamesArePlain();
    var w0 := [Field("p", Sanitize(t.profile)), Field("cmp", Compression(t.savedBytes))];
    assert AllClean(w0) by {
      PlainField("p", Sanitize(t.profile));
      PlainField("cmp", Compression(t.savedBytes));
      PairClean(w0[0], w0[1]);
    }
    var w1 := When(t.outcome != "" && t.outcome != "served", "o", Sanitize(t.outcome));
    PlainWhen(t.outcome != "" && t.outcome != "served", "o", Sanitize(t.outcome));
    var v2 := if t.served.Some? then Score(t.served.value.hundredths) else "";
    PlainWhen(t.served.Some?, "s", v2);
    var late := t.served.Some? && t.served.value.index > 1;
    var v3 := if late then Decimal(t.served.value.index) else "";
    if late {
      DigitsPlain(v3);
    }
    PlainWhen(late, "a", v3);
    PlainWhen(t.caps != [], "caps", Sanitize(Join(t.caps, '+')));
    PlainWhen(RuleId(t.ruleId) != "", "rid", RuleId(t.ruleId));
    CleanConcat(w0, w1);
    CleanConcat(w0 + w1, When(t.served.Some?, "s", v2));
    CleanConcat(w0 + w1 + When(t.served.Some?, "s", v2), When(late, "a", v3));
    CleanConcat(w0 + w1 + When(t.served.Some?, "s", v2) + When(late, "a", v3),
                When(t.caps != [], "caps", Sanitize(Join(t.caps, '+'))));
    CleanConcat(w0 + w1 + When(t.served.Some?, "s", v2) + When(late, "a", v3)
                + When(t.caps != [], "caps", Sanitize(Join(t.caps, '+'))),
                When(RuleId(t.ruleId) != "", "rid", RuleId(t.ruleId)));
  }

  lemma PairClean(f: Field, g: Field)
    requires Clean(f) && Clean(g)
    ensures AllClean([f, g])
  {
  }

  lemma NamesArePlain()
    ensures AllPlain("p") && AllPlain("cmp") && AllPlain("o") && AllPlain("s") && AllPlain("a")
    ensures AllPlain("caps") && AllPlain("rid") && AllPlain("n") && AllPlain("brk") && AllPlain("q")
  {
  }

  lemma DigitsPlain(s: string)
    requires forall i | 0 <= i < |s| :: '0' <= s[i] <= '9'
    ensures AllPlain(s)
  {
  }

  lemma ShapeClean(t: Trace)
    ensures AllClean(Shape(t))
  {
    hide Decimal, AllClean, When;
    NamesArePlain();
    var v := Decimal(t.planned) + "/" + Decimal(t.afterCaps) + "/" + Decimal(t.eligible);
    assert AllPlain(v);
    PlainField("n", v);
    var b := if t.byBreaker > 0 then Decimal(t.byBreaker) else "";
    var q := if t.byQuota > 0 then Decimal(t.byQuota) else "";
    DigitsPlain(b);
    DigitsPlain(q);
    hide AllPlain;
    PlainWhen(t.byBreaker > 0, "brk", b);
    PlainWhen(t.byQuota > 0, "q", q);
    CleanConcat(When(t.byBreaker > 0, "brk", b), When(t.byQuota > 0, "q", q));
    assert AllClean([Field("n", v)]) by { OneClean(Field("n", v)); }
    CleanConcat([Field("n", v)], Excluded(t));
  }

  lemma OneClean(f: Field)
    requires Clean(f)
    ensures AllClean([f])
  {
  }

  lemma FinalClean(t: Trace, how: Trimmed)
    ensures AllClean(Final(t, how))
  {
    hide Protected, Shape, Prev, AllClean, When;
    ProtectedClean(t);
    ShapeClean(t);
    PrevClean(Listed(t, how));
    assert AllClean([]) by { NoneClean(); }
    assert AllClean(When(!how.Whole?, "trunc", "1")) by {
      PlainWhen(!how.Whole?, "trunc", "1");
    }
    var shape := if how.Bare? then [] else Shape(t);
    CleanConcat(Protected(t), shape);
    CleanConcat(Protected(t) + shape, Prev(Listed(t, how)));
    CleanConcat(Protected(t) + shape + Prev(Listed(t, how)), When(!how.Whole?, "trunc", "1"));
  }

  lemma NoneClean()
    ensures AllClean([])
  {
  }

  // ---- no name occurs twice ----

  function Rank(key: string): nat {
    if key == "p" then 0 else if key == "cmp" then 1 else if key == "o" then 2 else if key == "s" then 3
    else if key == "a" then 4 else if key == "caps" then 5 else if key == "rid" then 6 else if key == "n" then 7
    else if key == "brk" then 8 else if key == "q" then 9 else if key == "prev" then 10 else if key == "trunc" then 11
    else 12
  }

  /** Names appear in their fixed order, within a range. */
  ghost predicate Ranked(fs: seq<Field>, lo: nat, hi: nat) {
    && (forall i | 0 <= i < |fs| :: lo <= Rank(fs[i].key) < hi)
    && (forall i, j | 0 <= i < j < |fs| :: Rank(fs[i].key) < Rank(fs[j].key))
  }

  lemma RankedConcat(a: seq<Field>, b: seq<Field>, lo: nat, mid: nat, hi: nat)
    requires Ranked(a, lo, mid) && Ranked(b, mid, hi) && lo <= mid <= hi
    ensures Ranked(a + b, lo, hi)
  {
  }

  lemma RankedWhen(present: bool, key: string, value: string, r: nat)
    requires Rank(key) == r
    ensures Ranked(When(present, key, value), r, r + 1)
  {
  }

  lemma RanksAre()
    ensures Rank("p") == 0 && Rank("cmp") == 1 && Rank("o") == 2 && Rank("s") == 3 && Rank("a") == 4
    ensures Rank("caps") == 5
    ensures Rank("rid") == 6 && Rank("n") == 7 && Rank("brk") == 8 && Rank("q") == 9 && Rank("prev") == 10
    ensures Rank("trunc") == 11
  {
  }

  lemma ProtectedRanked(t: Trace)
    ensures Ranked(Protected(t), 0, 7)
  {
    hide Sanitize, Compression, Score, RuleId, Decimal, Join, When, Rank, Ranked;
    RanksAre();
    var w0 := [Field("p", Sanitize(t.profile)), Field("cmp", Compression(t.savedBytes))];
    assert Ranked(w0, 0, 2) by { PairRanked(w0[0], w0[1]); }
    var w1 := When(t.outcome != "" && t.outcome != "served", "o", Sanitize(t.outcome));
    var w2 := When(t.served.Some?, "s", if t.served.Some? then Score(t.served.value.hundredths) else "");
    var late := t.served.Some? && t.served.value.index > 1;
    var w3 := When(late, "a", if late then Decimal(t.served.value.index) else "");
    var w4 := When(t.caps != [], "caps", Sanitize(Join(t.caps, '+')));
    var w5 := When(RuleId(t.ruleId) != "", "rid", RuleId(t.ruleId));
    RankedWhen(t.outcome != "" && t.outcome != "served", "o", Sanitize(t.outcome), 2);
    RankedWhen(t.served.Some?, "s", if t.served.Some? then Score(t.served.value.hundredths) else "", 3);
    RankedWhen(late, "a", if late then Decimal(t.served.value.index) else "", 4);
    RankedWhen(t.caps != [], "caps", Sanitize(Join(t.caps, '+')), 5);
    RankedWhen(RuleId(t.ruleId) != "", "rid", RuleId(t.ruleId), 6);
    RankedConcat(w0, w1, 0, 2, 3);
    RankedConcat(w0 + w1, w2, 0, 3, 4);
    RankedConcat(w0 + w1 + w2, w3, 0, 4, 5);
    RankedConcat(w0 + w1 + w2 + w3, w4, 0, 5, 6);
    RankedConcat(w0 + w1 + w2 + w3 + w4, w5, 0, 6, 7);
  }

  lemma PairRanked(f: Field, g: Field)
    requires f.key == "p" && g.key == "cmp"
    ensures Ranked([f, g], 0, 2)
  {
  }

  lemma ShapeRanked(t: Trace)
    ensures Ranked(Shape(t), 7, 10)
  {
    hide Decimal, When, Rank, Ranked;
    RanksAre();
    var n := [Shape(t)[0]];
    assert Ranked(n, 7, 8) by { OneRanked(n[0], 7); }
    var b := if t.byBreaker > 0 then Decimal(t.byBreaker) else "";
    var q := if t.byQuota > 0 then Decimal(t.byQuota) else "";
    RankedWhen(t.byBreaker > 0, "brk", b, 8);
    RankedWhen(t.byQuota > 0, "q", q, 9);
    RankedConcat(When(t.byBreaker > 0, "brk", b), When(t.byQuota > 0, "q", q), 8, 9, 10);
    RankedConcat(n, Excluded(t), 7, 8, 10);
  }

  lemma OneRanked(f: Field, r: nat)
    requires Rank(f.key) == r
    ensures Ranked([f], r, r + 1)
  {
  }

  lemma NoneRanked(lo: nat, hi: nat)
    ensures Ranked([], lo, hi)
  {
  }

  lemma FinalRanked(t: Trace, how: Trimmed)
    ensures Ranked(Final(t, how), 0, 12)
  {
    hide Protected, Shape, When, Rank, Ranked, Join, Entries;
    RanksAre();
    ProtectedRanked(t);
    ShapeRanked(t);
    NoneRanked(7, 10);
    var shape := if how.Bare? then [] else Shape(t);
    var listed := Listed(t, how);
    RankedWhen(listed != [], "prev", Join(Entries(listed), ','), 10);
    RankedWhen(!how.Whole?, "trunc", "1", 11);
    RankedConcat(Protected(t), shape, 0, 7, 10);
    RankedConcat(Protected(t) + shape, Prev(listed), 0, 10, 11);
    RankedConcat(Protected(t) + shape + Prev(listed), When(!how.Whole?, "trunc", "1"), 0, 11, 12);
  }

  lemma {:induction false} TableReads(fs: seq<Field>, lo: nat, hi: nat)
    requires Ranked(fs, lo, hi)
    ensures forall k :: k in Table(fs) <==> exists i :: 0 <= i < |fs| && fs[i].key == k
    ensures forall i | 0 <= i < |fs| :: fs[i].key in Table(fs) && Table(fs)[fs[i].key] == fs[i].value
  {
    hide Rank;
    if fs != [] {
      var n := |fs| - 1;
      TableReads(fs[..n], lo, hi);
      forall i | 0 <= i < |fs| ensures fs[i].key in Table(fs) && Table(fs)[fs[i].key] == fs[i].value {
        if i < n {
          assert fs[..n][i] == fs[i];
          assert Rank(fs[i].key) < Rank(fs[n].key);
        }
      }
      forall k ensures k in Table(fs) <==> exists i :: 0 <= i < |fs| && fs[i].key == k {
        if k in Table(fs) && k != fs[n].key {
          assert k in Table(fs[..n]);
          var i :| 0 <= i < n && fs[..n][i].key == k;
          assert fs[i].key == k;
        }
      }
    }
  }

  // ---- the round trip ----

  /** What the client reads is exactly what the trace says: each field it kept, under its own name, and nothing else. */
  lemma RoundTrip(t: Trace, how: Trimmed)
    requires IsTrim(Guarded(t), NText(t), BrkText(t), Entries(t.attempts), how)
    ensures how.Shortened? ==> how.kept < |t.attempts|
    ensures var out := Output(Guarded(t), NText(t), BrkText(t), Entries(t.attempts), how);
      var read := Fields(Split(out, ';'));
      && (forall k :: k in read <==> exists i :: 0 <= i < |Final(t, how)| && Final(t, how)[i].key == k)
      && (forall i | 0 <= i < |Final(t, how)| ::
            Final(t, how)[i].key in read && read[Final(t, how)[i].key] == Final(t, how)[i].value)
  {
    assert how.Shortened? ==> how.kept < |t.attempts|;
    hide IsTrim, Final, Ranked, AllClean, Output, Guarded, NText, BrkText, Fields, Table, Split, Join;
    HeaderWritten(t, how);
    FinalClean(t, how);
    HeaderReads(Final(t, how));
    FinalRanked(t, how);
    TableReads(Final(t, how), 0, 12);
  }

  /** The truncation marker is present exactly when something was dropped; without it nothing is missing. */
  lemma MarkerMeansDropped(t: Trace, how: Trimmed)
    requires IsTrim(Guarded(t), NText(t), BrkText(t), Entries(t.attempts), how)
    ensures var read := Fields(Split(Output(Guarded(t), NText(t), BrkText(t), Entries(t.attempts), how), ';'));
      && ("trunc" in read <==> !how.Whole?)
      && ("trunc" !in read ==>
            Listed(t, how) == t.attempts && Final(t, how) == Protected(t) + Shape(t) + Prev(t.attempts))
  {
    RoundTrip(t, how);
    hide IsTrim, Output, Fields, Split, Join, Protected, Shape, Prev;
    var fs := Final(t, how);
    if how.Whole? {
      FinalRankedWhole(t);
      assert fs == Protected(t) + Shape(t) + Prev(t.attempts);
    } else {
      assert fs[|fs| - 1].key == "trunc";
    }
  }

  lemma FinalRankedWhole(t: Trace)
    ensures forall i | 0 <= i < |Final(t, Whole)| :: Final(t, Whole)[i].key != "trunc"
  {
    hide Protected, Shape, When, Rank, Ranked, Join, Entries;
    RanksAre();
    ProtectedRanked(t);
    ShapeRanked(t);
    RankedWhen(t.attempts != [], "prev", Join(Entries(t.attempts), ','), 10);
    RankedConcat(Protected(t), Shape(t), 0, 7, 10);
    RankedConcat(Protected(t) + Shape(t), Prev(t.attempts), 0, 10, 11);
    var fs := Protected(t) + Shape(t) + Prev(t.attempts);
    assert Final(t, Whole) == fs by { WhenNot(); }
    forall i | 0 <= i < |fs| ensures fs[i].key != "trunc" {
      RankBelow(fs, 0, 11, i);
    }
  }

  lemma WhenNot()
    ensures When(false, "trunc", "1") == []
  {
  }

  lemma RankBelow(fs: seq<Field>, lo: nat, hi: nat, i: nat)
    requires Ranked(fs, lo, hi) && i < |fs|
    ensures lo <= Rank(fs[i].key) < hi
  {
  }

  /** The list of failed attempts comes back entry by entry, in order, each as its model and code. */
  lemma {:induction false} PrevRoundTrip(attempts: seq<Failed>, i: nat)
    requires i < |attempts|
    ensures Split(Join(Entries(attempts), ','), ',') == Entries(attempts)
    ensures Cut(Entries(attempts)[i], ':') == Some((ShortModel(attempts[i].model), Code(attempts[i])))
    ensures Phrase(Entries(attempts)[i]) == ShortModel(attempts[i].model) + " (" + Code(attempts[i]) + ")"
  {
    forall j | 0 <= j < |attempts| ensures ',' !in Entries(attempts)[j] {
      EntryShape(attempts[j]);
    }
    SplitJoin(Entries(attempts), ',');
    EntryShape(attempts[i]);
    CutFirst(ShortModel(attempts[i].model), Code(attempts[i]), ':');
  }

  lemma PrevFieldIff(t: Trace, how: Trimmed, i: nat)
    requires i < |Final(t, how)| && Final(t, how)[i].key == "prev"
    ensures Listed(t, how) != [] && Final(t, how)[i].value == Join(Entries(Listed(t, how)), ',')
  {
    hide Protected, Shape, Rank, Ranked, Join, Entries;
    RanksAre();
    ProtectedRanked(t);
    ShapeRanked(t);
    NoneRanked(7, 10);
    var shape := if how.Bare? then [] else Shape(t);
    RankedConcat(Protected(t), shape, 0, 7, 10);
    var front := Protected(t) + shape;
    if i < |front| {
      RankBelow(front, 0, 10, i);
    }
  }

  lemma PrevFieldAt(t: Trace, how: Trimmed)
    requires Listed(t, how) != []
    ensures exists i ::
      0 <= i < |Final(t, how)| && Final(t, how)[i] == Field("prev", Join(Entries(Listed(t, how)), ','))
  {
    hide Protected, Shape, Join, Entries;
    var p := |Protected(t)| + (if how.Bare? then 0 else |Shape(t)|);
    assert Final(t, how)[p] == Field("prev", Join(Entries(Listed(t, how)), ','));
  }

  /** Reading a table that holds exactly the given fields. */
  lemma PrevInTable(read: map<string, string>, fs: seq<Field>, value: string, present: bool)
    requires forall k :: k in read <==> exists i :: 0 <= i < |fs| && fs[i].key == k
    requires forall i | 0 <= i < |fs| :: fs[i].key in read && read[fs[i].key] == fs[i].value
    requires forall i | 0 <= i < |fs| && fs[i].key == "prev" :: present && fs[i].value == value
    requires present ==> exists i :: 0 <= i < |fs| && fs[i] == Field("prev", value)
    ensures ("prev" in read <==> present) && (present ==> read["prev"] == value)
  {
  }

  /** The failed attempts read from a rendered header are exactly those still listed, entry by entry. */
  lemma PrevReadBack(t: Trace, how: Trimmed)
    requires IsTrim(Guarded(t), NText(t), BrkText(t), Entries(t.attempts), how)
    ensures var read := Fields(Split(Output(Guarded(t), NText(t), BrkText(t), Entries(t.attempts), how), ';'));
      && ("prev" in read <==> Listed(t, how) != [])
      && ("prev" in read ==> Split(read["prev"], ',') == Entries(Listed(t, how)))
  {
    RoundTrip(t, how);
    hide *;
    var fs, listed := Final(t, how), Listed(t, how);
    forall i | 0 <= i < |fs| && fs[i].key == "prev"
      ensures listed != [] && fs[i].value == Join(Entries(listed), ',')
    {
      PrevFieldIff(t, how, i);
    }
    if listed != [] {
      PrevFieldAt(t, how);
      PrevRoundTrip(listed, 0);
    }
    PrevInTable(Fields(Split(Output(Guarded(t), NText(t), BrkText(t), Entries(t.attempts), how), ';')), fs,
                Join(Entries(listed), ','), listed != []);
  }
}
