/** What a client reads from a rendered header, said on the trace's own values: each text, each number, each absence. */
module TraceValues {
  import opened Base
  import opened Text
  import opened TraceText
  import opened TraceHeader
  import opened TraceReader

  // ---- single values ----

  /** The status code of a failed attempt is written as a number; without one stands the kind of failure. */
  lemma CodeReads(a: Failed)
    ensures a.status > 0 ==> Value(Code(a)) == a.status && Code(a)[0] != '0'
    ensures a.status <= 0 ==> Code(a) == if a.kind == "" then "err" else Sanitize(a.kind)
  {
    if a.status > 0 {
      DecimalReads(a.status);
    }
  }

  lemma NoPoint(s: string, c: char)
    requires (forall i | 0 <= i < |s| :: '0' <= s[i] <= '9') && !('0' <= c <= '9')
    ensures c !in s
  {
  }

  lemma TwoDigits(a: nat, b: nat)
    requires a < 10 && b < 10
    ensures Value([Digit(a), Digit(b)]) == 10 * a + b
  {
    DigitReads(a);
    DigitReads(b);
    var s := [Digit(a), Digit(b)];
    assert s[..1] == [Digit(a)];
    OneDigit(a);
  }

  lemma OneDigit(a: nat)
    requires a < 10
    ensures Value([Digit(a)]) == a
  {
    DigitReads(a);
    assert [Digit(a)][..0] == "";
  }

  /** The score is written with two places. */
  lemma ScoreReads(h: nat)
    ensures exists w, d :: Cut(Score(h), '.') == Some((w, d)) && |d| == 2 && 100 * Value(w) + Value(d) == h
  {
    var w, d := Decimal(h / 100), [Digit(h / 10 % 10), Digit(h % 10)];
    DecimalReads(h / 100);
    TwoDigits(h / 10 % 10, h % 10);
    NoPoint(w, '.');
    assert Score(h) == w + ['.'] + d;
    CutFirst(w, d, '.');
    hide Decimal, Value, Cut;
    Hundreds(h);
    assert Cut(Score(h), '.') == Some((w, d)) && |d| == 2 && 100 * Value(w) + Value(d) == h;
  }

  lemma Hundreds(h: nat)
    ensures 100 * (h / 100) + (10 * (h / 10 % 10) + h % 10) == h
  {
    assert h / 100 == h / 10 / 10;
  }

  /** Tenths of a kibibyte, to the nearest one and to the even one of two. */
  lemma TenthsAreNearest(n: nat)
    ensures -512 <= 1024 * Tenths(n) - 10 * n <= 512
    ensures 1024 * Tenths(n) - 10 * n == 512 || 1024 * Tenths(n) - 10 * n == -512 ==> Tenths(n) % 2 == 0
  {
    var q, r := 10 * n / 1024, 10 * n % 1024;
    assert 10 * n == 1024 * q + r;
  }

  /** The bytes saved by compression: exactly below a kibibyte, else in tenths of one. */
  lemma CompressionReads(saved: int)
    ensures saved <= 0 ==> Compression(saved) == "off"
    ensures 0 < saved < 1024 ==> Compression(saved)[0] == '-' && Value(Compression(saved)[1..]) == saved
    ensures saved >= 1024 ==>
      var r := Compression(saved);
      && |r| >= 2 && r[0] == '-' && r[|r| - 1] == 'k'
      && exists w, d :: Cut(r[1..|r| - 1], '.') == Some((w, d)) && |d| == 1 && 10 * Value(w) + Value(d) == Tenths(saved)
  {
    if 0 < saved < 1024 {
      DecimalReads(saved);
      assert Compression(saved)[1..] == Decimal(saved);
    } else if saved >= 1024 {
      var n := Tenths(saved);
      var w, d := Decimal(n / 10), [Digit(n % 10)];
      DecimalReads(n / 10);
      OneDigit(n % 10);
      NoPoint(w, '.');
      var r := Compression(saved);
      assert r == "-" + w + "." + d + "k";
      assert r[1..|r| - 1] == w + ['.'] + d;
      CutFirst(w, d, '.');
      hide Decimal, Value, Cut, Tenths, Compression;
      assert Cut(r[1..|r| - 1], '.') == Some((w, d)) && |d| == 1 && 10 * Value(w) + Value(d) == n;
    }
  }

  lemma {:induction false} LastSlashIs(a: string, b: string)
    requires '/' !in b
    ensures LastSlash(a + "/" + b) == Some(|a|) && LastSlash(b) == None
  {
    if b == "" {
      assert (a + "/" + b)[|a|] == '/';
    } else {
      var n := |b| - 1;
      LastSlashIs(a, b[..n]);
      assert (a + "/" + b)[..|a| + 1 + n] == a + "/" + b[..n];
      assert b[n] in b;
    }
  }

  /** A model is listed by the last part of its name, without the mark of a free tier. */
  lemma ShortModelIs(vendor: string, name: string, slashed: bool, free: bool)
    requires AllPlain(name) && '/' !in name && name != ""
    ensures ShortModel((if slashed then vendor + "/" else "") + name + (if free then ":free" else "")) == name
  {
    var tail := name + (if free then ":free" else "");
    var model := (if slashed then vendor + "/" else "") + tail;
    assert (if slashed then vendor + "/" else "") + name + (if free then ":free" else "") == model;
    forall i | 0 <= i < |tail| ensures tail[i] != '/' {
      if i < |name| {
        assert tail[i] == name[i];
      } else {
        assert tail[i] == ":free"[i - |name|];
      }
    }
    LastSlashIs(vendor, tail);
    if slashed {
      assert model == vendor + "/" + tail;
      assert model[|vendor| + 1..] == tail;
    } else {
      assert model == tail;
    }
    TrimFree(name, free);
  }

  lemma TrimFree(name: string, free: bool)
    requires AllPlain(name)
    ensures TrimSuffix(name + (if free then ":free" else ""), ":free") == name
  {
    if free {
      assert (name + ":free")[..|name|] == name;
    } else {
      forall i | 0 <= i < |name| ensures name[i] != ':' {
        assert Plain(name[i]);
      }
      if |name| >= 5 {
        assert name[|name| - 5..][0] == name[|name| - 5] != ":free"[0];
      }
    }
  }

  // ---- the whole header ----

  /** The client's table of a rendered header. */
  function Read(t: Trace, how: Trimmed): map<string, string>
    requires how.Shortened? ==> how.kept <= |t.attempts|
  {
    Fields(Split(Output(Guarded(t), NText(t), BrkText(t), Entries(t.attempts), how), ';'))
  }

  lemma ReadIsTable(t: Trace, how: Trimmed)
    requires how.Shortened? ==> how.kept <= |t.attempts|
    ensures Read(t, how) == Table(Final(t, how))
  {
    hide Final, AllClean, Output, Guarded, NText, BrkText, Fields, Table, Split, Join;
    HeaderWritten(t, how);
    FinalClean(t, how);
    HeaderReads(Final(t, how));
  }

  predicate Late(t: Trace) {
    t.served.Some? && t.served.value.index > 1
  }

  function NumbersText(t: Trace): string {
    Decimal(t.planned) + "/" + Decimal(t.afterCaps) + "/" + Decimal(t.eligible)
  }

  /** The names of the fields, in the order of their ranks. */
  function Name(rank: nat): string {
    match rank
    case 0 => "p"
    case 1 => "cmp"
    case 2 => "o"
    case 3 => "s"
    case 4 => "a"
    case 5 => "caps"
    case 6 => "rid"
    case 7 => "n"
    case 8 => "brk"
    case 9 => "q"
    case 10 => "prev"
    case _ => "trunc"
  }

  /** Which fields a header has. */
  predicate Has(t: Trace, how: Trimmed, rank: nat) {
    match rank
    case 2 => t.outcome != "" && t.outcome != "served"
    case 3 => t.served.Some?
    case 4 => Late(t)
    case 5 => t.caps != []
    case 6 => RuleId(t.ruleId) != ""
    case 7 => !how.Bare?
    case 8 => !how.Bare? && t.byBreaker > 0
    case 9 => !how.Bare? && t.byQuota > 0
    case 10 => Listed(t, how) != []
    case 11 => !how.Whole?
    case _ => true
  }

  /** What it says in each. */
  function Says(t: Trace, how: Trimmed, rank: nat): string {
    match rank
    case 0 => Sanitize(t.profile)
    case 1 => Compression(t.savedBytes)
    case 2 => Sanitize(t.outcome)
    case 3 => if t.served.Some? then Score(t.served.value.hundredths) else ""
    case 4 => if Late(t) then Decimal(t.served.value.index) else ""
    case 5 => Sanitize(Join(t.caps, '+'))
    case 6 => RuleId(t.ruleId)
    case 7 => NumbersText(t)
    case 8 => if t.byBreaker > 0 then Decimal(t.byBreaker) else ""
    case 9 => if t.byQuota > 0 then Decimal(t.byQuota) else ""
    case 10 => Join(Entries(Listed(t, how)), ',')
    case _ => "1"
  }

  function Slot(t: Trace, how: Trimmed, rank: nat): seq<Field> {
    When(Has(t, how, rank), Name(rank), Says(t, how, rank))
  }

  function Slots(t: Trace, how: Trimmed, n: nat): seq<Field> {
    if n == 0 then [] else Slots(t, how, n - 1) + Slot(t, how, n - 1)
  }

  lemma ProtectedIsSlots(t: Trace, how: Trimmed)
    ensures Protected(t) == Slots(t, how, 7)
  {
    hide Sanitize, Compression, Score, RuleId, Decimal, Join, When, Slots, Listed, Entries;
    SlotsStep(t, how, 0);
    SlotsStep(t, how, 1);
    SlotsStep(t, how, 2);
    SlotsStep(t, how, 3);
    SlotsStep(t, how, 4);
    SlotsStep(t, how, 5);
    SlotsStep(t, how, 6);
    WhenIs("p", Sanitize(t.profile));
    WhenIs("cmp", Compression(t.savedBytes));
    assert Slots(t, how, 2) == [Field("p", Sanitize(t.profile)), Field("cmp", Compression(t.savedBytes))];
  }

  lemma SlotsStep(t: Trace, how: Trimmed, n: nat)
    ensures Slots(t, how, 0) == [] && Slots(t, how, n + 1) == Slots(t, how, n) + Slot(t, how, n)
  {
  }

  lemma WhenIs(key: string, value: string)
    ensures When(true, key, value) == [Field(key, value)] && When(false, key, value) == []
  {
  }

  lemma FinalIsSlots(t: Trace, how: Trimmed)
    ensures Final(t, how) == Slots(t, how, 12)
  {
    hide Sanitize, Compression, Score, RuleId, Decimal, Join, When, Slots, Listed, Entries, Protected;
    ProtectedIsSlots(t, how);
    SlotsStep(t, how, 7);
    SlotsStep(t, how, 8);
    SlotsStep(t, how, 9);
    SlotsStep(t, how, 10);
    SlotsStep(t, how, 11);
    var n, b, q := NumbersText(t), Says(t, how, 8), Says(t, how, 9);
    WhenIs("n", n);
    WhenIs("brk", b);
    WhenIs("q", q);
    var shape := if how.Bare? then [] else Shape(t);
    assert Slots(t, how, 10) == Protected(t) + shape;
  }

  /** A field is read under its name exactly if the header has it. */
  ghost predicate Shown(read: map<string, string>, key: string, present: bool, value: string) {
    (key in read <==> present) && (present ==> read[key] == value)
  }

  lemma RankOfName(rank: nat)
    requires rank < 12
    ensures Rank(Name(rank)) == rank
  {
    RanksAre();
    hide Rank;
  }

  lemma TableMore(fs: seq<Field>, present: bool, key: string, value: string)
    ensures Table(fs + When(present, key, value)) == if present then Table(fs)[key := value] else Table(fs)
  {
    if present {
      assert (fs + [Field(key, value)])[..|fs|] == fs;
    } else {
      assert fs + [] == fs;
    }
  }

  /** The table of the first `n` slots shows each of them, and no other name. */
  lemma {:induction false} SlotsShow(t: Trace, how: Trimmed, n: nat, rank: nat)
    requires n <= 12 && rank < 12
    ensures Shown(Table(Slots(t, how, n)), Name(rank), rank < n && Has(t, how, rank), Says(t, how, rank))
  {
    hide Name, Has, Says, Rank, When, Table;
    if n == 0 {
      assert Table([]) == map[] by { TableNone(); }
    } else {
      SlotsShow(t, how, n - 1, rank);
      RankOfName(n - 1);
      RankOfName(rank);
      TableMore(Slots(t, how, n - 1), Has(t, how, n - 1), Name(n - 1), Says(t, how, n - 1));
    }
  }

  lemma TableNone()
    ensures Table([]) == map[]
  {
  }

  lemma ShownAt(t: Trace, how: Trimmed, rank: nat)
    requires (how.Shortened? ==> how.kept <= |t.attempts|) && rank < 12
    ensures Shown(Read(t, how), Name(rank), Has(t, how, rank), Says(t, how, rank))
  {
    hide *;
    ReadIsTable(t, how);
    FinalIsSlots(t, how);
    SlotsShow(t, how, 12, rank);
  }

  /**
   The fields that are always kept: profile and compression, and exactly when the trace has them the outcome,
   the score, the number of the attempt that served, the capabilities and the rule.
   */
  lemma KeptShows(t: Trace, how: Trimmed)
    requires how.Shortened? ==> how.kept <= |t.attempts|
    ensures var read := Read(t, how);
      && Shown(read, "p", true, Sanitize(t.profile)) && Shown(read, "cmp", true, Compression(t.savedBytes))
      && Shown(read, "o", t.outcome != "" && t.outcome != "served", Sanitize(t.outcome))
      && ("s" in read <==> t.served.Some?) && ("s" in read ==> read["s"] == Score(t.served.value.hundredths))
      && ("a" in read <==> t.served.Some? && t.served.value.index > 1)
      && ("a" in read ==> Value(read["a"]) == t.served.value.index)
      && Shown(read, "caps", t.caps != [], Sanitize(Join(t.caps, '+')))
      && Shown(read, "rid", 0 < |t.ruleId| <= 64, Sanitize(t.ruleId))
  {
    hide *;
    NamesAre();
    ShownAt(t, how, 0);
    ShownAt(t, how, 1);
    ShownAt(t, how, 2);
    ShownAt(t, how, 5);
    KeptAre(t, how);
    RuleShows(t, how);
    ServedShows(t, how);
  }

  lemma NamesAre()
    ensures Name(0) == "p" && Name(1) == "cmp" && Name(2) == "o" && Name(3) == "s" && Name(4) == "a"
    ensures Name(5) == "caps" && Name(6) == "rid" && Name(7) == "n" && Name(8) == "brk" && Name(9) == "q"
    ensures Name(10) == "prev" && Name(11) == "trunc"
  {
  }

  lemma KeptAre(t: Trace, how: Trimmed)
    ensures Has(t, how, 0) && Says(t, how, 0) == Sanitize(t.profile)
    ensures Has(t, how, 1) && Says(t, how, 1) == Compression(t.savedBytes)
    ensures Has(t, how, 2) <==> t.outcome != "" && t.outcome != "served"
    ensures Says(t, how, 2) == Sanitize(t.outcome)
    ensures Has(t, how, 5) <==> t.caps != []
    ensures Says(t, how, 5) == Sanitize(Join(t.caps, '+'))
  {
  }

  lemma RuleShows(t: Trace, how: Trimmed)
    requires how.Shortened? ==> how.kept <= |t.attempts|
    ensures Shown(Read(t, how), "rid", 0 < |t.ruleId| <= 64, Sanitize(t.ruleId))
  {
    hide Read, Name, Sanitize, RuleId;
    NamesAre();
    ShownAt(t, how, 6);
    RuleIs(t.ruleId);
  }

  lemma ServedShows(t: Trace, how: Trimmed)
    requires how.Shortened? ==> how.kept <= |t.attempts|
    ensures var read := Read(t, how);
      && ("s" in read <==> t.served.Some?) && ("s" in read ==> read["s"] == Score(t.served.value.hundredths))
      && ("a" in read <==> t.served.Some? && t.served.value.index > 1)
      && ("a" in read ==> Value(read["a"]) == t.served.value.index)
  {
    hide Read, Name, Score, Decimal, Value;
    NamesAre();
    ShownAt(t, how, 3);
    ShownAt(t, how, 4);
    if Late(t) {
      DecimalReads(t.served.value.index);
    }
  }

  lemma RuleIs(id: string)
    ensures (RuleId(id) != "" <==> 0 < |id| <= 64) && (RuleId(id) != "" ==> RuleId(id) == Sanitize(id))
  {
  }

  /** The chain shape, unless it had to go: three numbers, and how many the breaker and the quota excluded. */
  lemma ShapeShows(t: Trace, how: Trimmed)
    requires how.Shortened? ==> how.kept <= |t.attempts|
    ensures var read := Read(t, how);
      && ("n" in read <==> !how.Bare?)
      && ("n" in read ==>
            var ns := Split(read["n"], '/');
            |ns| == 3 && Value(ns[0]) == t.planned && Value(ns[1]) == t.afterCaps && Value(ns[2]) == t.eligible)
      && ("brk" in read <==> !how.Bare? && t.byBreaker > 0) && ("brk" in read ==> Value(read["brk"]) == t.byBreaker)
      && ("q" in read <==> !how.Bare? && t.byQuota > 0) && ("q" in read ==> Value(read["q"]) == t.byQuota)
  {
    hide Read, Name, NumbersText, Split, Decimal, Value;
    NamesAre();
    ShownAt(t, how, 7);
    ShownAt(t, how, 8);
    ShownAt(t, how, 9);
    NumbersRead(t);
    if t.byBreaker > 0 {
      DecimalReads(t.byBreaker);
    }
    if t.byQuota > 0 {
      DecimalReads(t.byQuota);
    }
  }

  lemma NumbersRead(t: Trace)
    ensures var ns := Split(NumbersText(t), '/');
      |ns| == 3 && Value(ns[0]) == t.planned && Value(ns[1]) == t.afterCaps && Value(ns[2]) == t.eligible
  {
    var a, b, c := Decimal(t.planned), Decimal(t.afterCaps), Decimal(t.eligible);
    DecimalReads(t.planned);
    DecimalReads(t.afterCaps);
    DecimalReads(t.eligible);
    NoPoint(a, '/');
    NoPoint(b, '/');
    NoPoint(c, '/');
    hide Decimal, Value;
    JoinThree(a, b, c, '/');
    SplitJoin([a, b, c], '/');
    assert "/" == ['/'];
  }

  lemma JoinThree(a: string, b: string, c: string, sep: char)
    ensures Join([a, b, c], sep) == a + [sep] + b + [sep] + c
  {
    assert [a, b, c][1..] == [b, c] && [b, c][1..] == [c];
    assert Join([b, c], sep) == b + [sep] + c;
  }

  /** Every failed attempt still listed is read as its model and its code, and a status code as its number. */
  lemma AttemptsShow(t: Trace, how: Trimmed, i: nat)
    requires how.Shortened? ==> how.kept <= |t.attempts|
    ensures var read, listed := Read(t, how), Listed(t, how);
      && listed <= t.attempts && ("prev" in read <==> listed != []) && ("trunc" in read <==> !how.Whole?)
      && (i < |listed| ==>
            var parts := Split(read["prev"], ',');
            && |parts| == |listed|
            && Cut(parts[i], ':') == Some((ShortModel(listed[i].model), Code(listed[i])))
            && (listed[i].status > 0 ==> Value(Code(listed[i])) == listed[i].status))
  {
    hide Read, Name, Join, Split, Cut, Code, ShortModel, Entries, Value;
    NamesAre();
    ShownAt(t, how, 10);
    ShownAt(t, how, 11);
    var listed := Listed(t, how);
    if i < |listed| {
      PrevRoundTrip(listed, i);
      CodeReads(listed[i]);
      assert |Entries(listed)| == |listed|;
    }
  }
}
