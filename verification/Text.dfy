/** Strings as the source uses them: trimming, decimal numbers, byte order. */
module Text {

  /** unicode.IsSpace. */
  predicate IsSpace(c: char) {
    c in "\t\n\U{0b}\U{0c}\r \U{85}\U{a0}\U{1680}\U{2028}\U{2029}\U{202f}\U{205f}\U{3000}"
    || '\U{2000}' <= c <= '\U{200a}'
  }

  function TrimLeft(s: string): string {
    if s != "" && IsSpace(s[0]) then TrimLeft(s[1..]) else s
  }

  function TrimRight(s: string): string {
    if s != "" && IsSpace(s[|s| - 1]) then TrimRight(s[..|s| - 1]) else s
  }

  /** strings.TrimSpace. */
  function Trim(s: string): string {
    TrimRight(TrimLeft(s))
  }

  predicate Trimmed(s: string) {
    s != "" ==> !IsSpace(s[0]) && !IsSpace(s[|s| - 1])
  }

  lemma TrimmedIsFixed(s: string)
    requires Trimmed(s)
    ensures Trim(s) == s
  {
  }

  lemma {:induction false} TrimRightEnds(s: string)
    ensures TrimRight(s) != "" ==> !IsSpace(TrimRight(s)[|TrimRight(s)| - 1])
    ensures TrimRight(s) <= s
  {
    if s != "" && IsSpace(s[|s| - 1]) {
      TrimRightEnds(s[..|s| - 1]);
    }
  }

  lemma {:induction false} TrimLeftStarts(s: string)
    ensures TrimLeft(s) != "" ==> !IsSpace(TrimLeft(s)[0])
  {
    if s != "" && IsSpace(s[0]) {
      TrimLeftStarts(s[1..]);
    }
  }

  lemma TrimIsTrimmed(s: string)
    ensures Trimmed(Trim(s)) && Trim(Trim(s)) == Trim(s)
  {
    TrimLeftStarts(s);
    TrimRightEnds(TrimLeft(s));
    TrimmedIsFixed(Trim(s));
  }

  lemma {:induction false} TrimRightConcat(a: string, b: string)
    requires TrimRight(b) != ""
    ensures TrimRight(a + b) == a + TrimRight(b)
  {
    var n := |b| - 1;
    if IsSpace(b[n]) {
      TrimRightConcat(a, b[..n]);
      assert (a + b)[..|a| + n] == a + b[..n];
    }
  }

  lemma {:induction false} TrimCommutes(s: string)
    ensures TrimLeft(TrimRight(s)) == Trim(s)
  {
    if s != "" && IsSpace(s[0]) {
      TrimCommutes(s[1..]);
      assert s == [s[0]] + s[1..];
      if TrimRight(s[1..]) != "" {
        TrimRightConcat([s[0]], s[1..]);
        assert ([s[0]] + TrimRight(s[1..]))[1..] == TrimRight(s[1..]);
      } else {
        SpacesVanish(s);
      }
    } else if s != "" {
      TrimRightEnds(s);
      KeepsFirst(s);
    }
  }

  lemma {:induction false} SpacesVanish(s: string)
    requires s != "" && IsSpace(s[0]) && TrimRight(s[1..]) == ""
    ensures TrimRight(s) == ""
  {
    var n := |s| - 1;
    if n > 0 {
      assert s[1..][n - 1] == s[n];
      assert s[1..][..n - 1] == s[..n][1..];
      SpacesVanish(s[..n]);
    }
  }

  lemma {:induction false} KeepsFirst(s: string)
    requires s != "" && !IsSpace(s[0])
    ensures TrimRight(s) != "" && TrimRight(s)[0] == s[0]
  {
    var n := |s| - 1;
    if IsSpace(s[n]) {
      KeepsFirst(s[..n]);
    }
  }

  /** Trimming the right end first changes nothing. */
  lemma TrimOfTrimRight(s: string)
    ensures Trim(TrimRight(s)) == Trim(s)
    ensures Trim(s) != "" ==> TrimRight(s) != ""
  {
    TrimCommutes(s);
    TrimRightEnds(s);
    TrimLeftEnds(TrimRight(s));
  }

  /** Trimming the left keeps the last character, if anything is left. */
  lemma {:induction false} TrimLeftEnds(s: string)
    requires s != "" ==> !IsSpace(s[|s| - 1])
    ensures TrimRight(TrimLeft(s)) == TrimLeft(s)
  {
    if s != "" && IsSpace(s[0]) {
      TrimLeftEnds(s[1..]);
    }
  }

  // ---------------------------------------------------------------- case and search

  function UpperAscii(c: char): char {
    if 'a' <= c <= 'z' then c - 'a' + 'A' else c
  }

  /** strings.HasPrefix(strings.ToUpper(line), tag). */
  predicate HasTag(line: string, tag: string) {
    |tag| <= |line| && forall i :: 0 <= i < |tag| ==> UpperAscii(line[i]) == tag[i]
  }

  lemma TagFits(line: string, tag: string)
    requires HasTag(line, tag)
    ensures |tag| <= |line|
  {
  }

  function LowerAscii(s: string): string {
    seq(|s|, i requires 0 <= i < |s| => if 'A' <= s[i] <= 'Z' then s[i] - 'A' + 'a' else s[i])
  }

  /** strings.IndexByte, with the length for -1. */
  function Index(s: string, c: char): (n: nat)
    ensures n <= |s| && (n < |s| ==> s[n] == c) && forall i :: 0 <= i < n ==> s[i] != c
  {
    if s == "" || s[0] == c then 0 else 1 + Index(s[1..], c)
  }

  lemma {:induction false} IndexAfter(a: string, c: char, b: string)
    requires c !in a
    ensures Index(a + [c] + b, c) == |a|
  {
    var s := a + [c] + b;
    assert s[|a|] == c;
  }

  // ---------------------------------------------------------------- decimal numbers

  function Digit(d: nat): char
    requires d < 10
  {
    "0123456789"[d]
  }

  predicate Digits(s: string) {
    forall i :: 0 <= i < |s| ==> '0' <= s[i] <= '9'
  }

  /** fmt's %d of a natural number. */
  function Itoa(n: nat): (s: string)
    ensures s != "" && Digits(s)
  {
    if n < 10 then [Digit(n)] else Itoa(n / 10) + [Digit(n % 10)]
  }

  /** The number a digit string stands for. */
  function Value(s: string): nat
    requires Digits(s)
  {
    if s == "" then 0
    else
      Value(s[..|s| - 1]) * 10 + (s[|s| - 1] as nat - '0' as nat)
  }

  lemma {:induction false} ValueOfItoa(n: nat)
    ensures Value(Itoa(n)) == n
  {
    if n >= 10 {
      ValueOfItoa(n / 10);
      var s := Itoa(n);
      assert s[..|s| - 1] == Itoa(n / 10) && s[|s| - 1] == Digit(n % 10);
    } else {
      assert [Digit(n)][..0] == "";
    }
  }

  lemma ItoaInjective(a: nat, b: nat)
    requires Itoa(a) == Itoa(b)
    ensures a == b
  {
    ValueOfItoa(a);
    ValueOfItoa(b);
  }

  // ---------------------------------------------------------------- order

  /** Go's <= on strings. */
  predicate StringLe(a: string, b: string) {
    a == "" || (b != "" && (a[0] < b[0] || (a[0] == b[0] && StringLe(a[1..], b[1..]))))
  }

  lemma {:induction false} StringLeTotal(a: string, b: string)
    ensures StringLe(a, b) || StringLe(b, a)
  {
    if a != "" && b != "" && a[0] == b[0] {
      StringLeTotal(a[1..], b[1..]);
    }
  }

  lemma {:induction false} StringLeTransitive(a: string, b: string, c: string)
    requires StringLe(a, b) && StringLe(b, c)
    ensures StringLe(a, c)
  {
    if a != "" && a[0] == b[0] == c[0] {
      StringLeTransitive(a[1..], b[1..], c[1..]);
    }
  }

  lemma {:induction false} StringLeAntisymmetric(a: string, b: string)
    requires StringLe(a, b) && StringLe(b, a)
    ensures a == b
  {
    if a != "" {
      StringLeAntisymmetric(a[1..], b[1..]);
    }
  }

  /** The first difference decides. */
  lemma {:induction false} FirstDifference(p: string, x: char, a: string, y: char, b: string)
    requires x != y
    ensures StringLe(p + [x] + a, p + [y] + b) <==> x < y
  {
    var s, t := p + [x] + a, p + [y] + b;
    if p == "" {
      assert s[0] == x && t[0] == y;
    } else {
      assert s[0] == p[0] == t[0] && s[1..] == p[1..] + [x] + a && t[1..] == p[1..] + [y] + b;
      FirstDifference(p[1..], x, a, y, b);
    }
  }

  /** A prefix comes first. */
  lemma {:induction false} PrefixFirst(p: string, a: string)
    ensures StringLe(p, p + a)
  {
    if p != "" {
      assert (p + a)[1..] == p[1..] + a;
      PrefixFirst(p[1..], a);
    }
  }

  predicate Spaces(s: string) {
    forall i :: 0 <= i < |s| ==> IsSpace(s[i])
  }

  /** Trimming takes spaces off both ends and nothing else. */
  lemma {:induction false} TrimTakesSpaces(before: string, s: string, after: string)
    requires Spaces(before) && Spaces(after) && Trimmed(s)
    ensures Trim(before + s + after) == s
  {
    hide IsSpace, TrimRight;
    if before != "" {
      assert (before + s + after)[0] == before[0] && (before + s + after)[1..] == before[1..] + s + after;
      TrimTakesSpaces(before[1..], s, after);
    } else {
      assert before + s + after == s + after;
      if s == "" {
        AllSpaces(after);
        assert s + after == after;
      } else {
        assert (s + after)[0] == s[0];
        TrimEnd(s, after);
      }
    }
  }

  lemma {:induction false} AllSpaces(s: string)
    requires Spaces(s)
    ensures Trim(s) == ""
  {
    if s != "" {
      AllSpaces(s[1..]);
    }
  }

  lemma TrimRightStep(s: string)
    requires s != ""
    ensures TrimRight(s) == if IsSpace(s[|s| - 1]) then TrimRight(s[..|s| - 1]) else s
  {
  }

  lemma {:induction false} TrimEnd(s: string, after: string)
    requires s != "" && !IsSpace(s[|s| - 1]) && Spaces(after)
    ensures TrimRight(s + after) == s
  {
    hide TrimRight;
    TrimRightStep(s + after);
    if after == "" {
      assert s + after == s;
    } else {
      var n := |after| - 1;
      assert (s + after)[..|s| + n] == s + after[..n];
      TrimEnd(s, after[..n]);
    }
  }
}
