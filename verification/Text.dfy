/** The few string operations the router relies on. Strings are sequences of runes. */
module Text {

  function LowerChar(c: char): char {
    if 'A' <= c <= 'Z' then ((c as int) + 32) as char else c
  }

  function Lower(s: string): string {
    seq(|s|, i requires 0 <= i < |s| => LowerChar(s[i]))
  }

  predicate HasSuffix(s: string, suffix: string) {
    |suffix| <= |s| && s[|s| - |suffix|..] == suffix
  }

  predicate Contains(s: string, sub: string) {
    sub <= s || (s != [] && Contains(s[1..], sub))
  }

  predicate StandsAt(s: string, sub: string, i: int) {
    0 <= i <= |s| - |sub| && s[i..i + |sub|] == sub
  }

  lemma StandsLater(s: string, sub: string, i: nat)
    requires s != []
    ensures StandsAt(s[1..], sub, i) <==> StandsAt(s, sub, i + 1)
  {
    if i + 1 <= |s| - |sub| {
      assert s[1..][i..i + |sub|] == s[i + 1..i + 1 + |sub|];
    }
  }

  lemma StandsFirst(s: string, sub: string)
    ensures StandsAt(s, sub, 0) <==> sub <= s
  {
  }

  /** A text contains another if and only if that one stands somewhere in it. */
  lemma {:induction false} ContainsIff(s: string, sub: string)
    ensures Contains(s, sub) <==> exists i :: StandsAt(s, sub, i)
  {
    StandsFirst(s, sub);
    if !(sub <= s) && s != [] {
      ContainsIff(s[1..], sub);
      if i :| StandsAt(s[1..], sub, i) {
        StandsLater(s, sub, i);
      }
      if i :| StandsAt(s, sub, i) && i > 0 {
        StandsLater(s, sub, i - 1);
      }
    }
  }

  /**
   Lower case keeps the length, and every letter but the capitals, which become the small letter of the same
   place.
   */
  lemma LowerMeans(s: string, i: nat)
    requires i < |s|
    ensures |Lower(s)| == |s|
    ensures !('A' <= s[i] <= 'Z') ==> Lower(s)[i] == s[i]
    ensures 'A' <= s[i] <= 'Z' ==>
      "ABCDEFGHIJKLMNOPQRSTUVWXYZ"[s[i] as int - 'A' as int] == s[i] &&
      Lower(s)[i] == "abcdefghijklmnopqrstuvwxyz"[s[i] as int - 'A' as int]
  {
  }

  predicate IsSpace(c: char) {
    || c == ' ' || '\t' <= c <= '\r' || c == '\U{85}' || c == '\U{A0}' || c == '\U{1680}'
    || '\U{2000}' <= c <= '\U{200A}' || c == '\U{2028}' || c == '\U{2029}' || c == '\U{202F}'
    || c == '\U{205F}' || c == '\U{3000}'
  }

  function TrimLeft(s: string): string {
    if s != "" && IsSpace(s[0]) then TrimLeft(s[1..]) else s
  }

  function TrimRight(s: string): string {
    if s != "" && IsSpace(s[|s| - 1]) then TrimRight(s[..|s| - 1]) else s
  }

  function Trim(s: string): string {
    TrimRight(TrimLeft(s))
  }

  predicate Solid(s: string) {
    forall i | 0 <= i < |s| :: !IsSpace(s[i])
  }

  lemma TrimSolid(s: string)
    requires Solid(s)
    ensures Trim(s) == s
  {
  }

  predicate Blank(s: string) {
    forall i | 0 <= i < |s| :: IsSpace(s[i])
  }

  lemma {:induction false} TrimLeftDrops(a: string, s: string)
    requires Blank(a) && (s == "" || !IsSpace(s[0]))
    ensures TrimLeft(a + s) == s
  {
    if a == "" {
      assert a + s == s;
    } else {
      TrimLeftDrops(a[1..], s);
      assert (a + s)[1..] == a[1..] + s;
    }
  }

  lemma {:induction false} TrimRightDrops(s: string, b: string)
    requires Blank(b) && (s == "" || !IsSpace(s[|s| - 1]))
    ensures TrimRight(s + b) == s
  {
    if b == "" {
      assert s + b == s;
    } else {
      var n := |b| - 1;
      TrimRightDrops(s, b[..n]);
      assert (s + b)[..|s| + n] == s + b[..n];
    }
  }

  /** Trimming takes away exactly the space around a text. */
  lemma TrimMeans(a: string, s: string, b: string)
    requires Blank(a) && Blank(b) && (s == "" || (!IsSpace(s[0]) && !IsSpace(s[|s| - 1])))
    ensures Trim(a + s + b) == s
  {
    if s == "" {
      assert Blank(a + b) && a + s + b == a + b + "";
      TrimLeftDrops(a + b, "");
    } else {
      assert a + s + b == a + (s + b);
      TrimLeftDrops(a, s + b);
      TrimRightDrops(s, b);
    }
  }
}
