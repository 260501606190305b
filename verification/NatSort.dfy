/** Natural-order comparison (internal/utils/natsort.go) and the guide's channel order built
    on it (internal/core/epg/guide.go). `lower` stands for the case mapping of Unicode. */
module NatSort {
  import opened Text

  // ---------------------------------------------------------------- characters

  /** First code points of the decimal digit blocks above ASCII (category Nd, Unicode 15). */
  const DIGIT_BLOCKS := [
    0x0660, 0x06F0, 0x07C0, 0x0966, 0x09E6, 0x0A66, 0x0AE6, 0x0B66, 0x0BE6, 0x0C66, 0x0CE6, 0x0D66, 0x0DE6, 0x0E50,
    0x0ED0, 0x0F20, 0x1040, 0x1090, 0x17E0, 0x1810, 0x1946, 0x19D0, 0x1A80, 0x1A90, 0x1B50, 0x1BB0, 0x1C40, 0x1C50,
    0xA620, 0xA8D0, 0xA900, 0xA9D0, 0xA9F0, 0xAA50, 0xABF0, 0xFF10, 0x104A0, 0x10D30, 0x11066, 0x110F0, 0x11136,
    0x111D0, 0x112F0, 0x11450, 0x114D0, 0x11650, 0x116C0, 0x11730, 0x118E0, 0x11950, 0x11C50, 0x11D50, 0x11DA0,
    0x11F50, 0x16A60, 0x16AC0, 0x16B50, 0x1D7CE, 0x1D7D8, 0x1D7E2, 0x1D7EC, 0x1D7F6, 0x1E140, 0x1E2F0, 0x1E4F0,
    0x1E950, 0x1FBF0]

  predicate IsForeignDigit(c: char) {
    c >= '\U{0660}' && exists k :: 0 <= k < |DIGIT_BLOCKS| && DIGIT_BLOCKS[k] <= c as int < DIGIT_BLOCKS[k] + 10
  }

  predicate IsAsciiDigit(c: char) {
    '0' <= c <= '9'
  }

  /** unicode.IsDigit. */
  predicate IsDigit(c: char) {
    IsAsciiDigit(c) || IsForeignDigit(c)
  }

  /** The Han script and the CJK ranges the source adds. */
  predicate IsCjk(c: char) {
    var u := c as int;
    0x2E80 <= u <= 0x2E99 || 0x2E9B <= u <= 0x2EF3 || 0x2F00 <= u <= 0x2FD5 || u == 0x3005 || u == 0x3007
    || 0x3021 <= u <= 0x3029 || 0x3038 <= u <= 0x303B || 0x3400 <= u <= 0x4DBF || 0x4E00 <= u <= 0x9FFF
    || 0xF900 <= u <= 0xFAFF || 0x16FE2 <= u <= 0x16FE3 || 0x16FF0 <= u <= 0x16FF1 || 0x20000 <= u <= 0x2A6DF
    || 0x20000 <= u <= 0x2CEAF || 0x2CEB0 <= u <= 0x2EBE0 || 0x2F800 <= u <= 0x2FA1D || 0x30000 <= u <= 0x323AF
  }

  function Lower(s: string, lower: char -> char): string {
    seq(|s|, i requires 0 <= i < |s| => lower(s[i]))
  }

  /** Every digit of the string is an ASCII one. */
  predicate AsciiDigits(s: string) {
    forall i :: 0 <= i < |s| && IsDigit(s[i]) ==> IsAsciiDigit(s[i])
  }

  // ---------------------------------------------------------------- what the code computes

  function Order(less: bool, equal: bool): int {
    if equal then 0 else if less then -1 else 1
  }

  function ZerosEnd(s: string, i: nat): (e: nat)
    requires i <= |s|
    ensures i <= e <= |s|
    decreases |s| - i
  {
    if i < |s| && s[i] == '0' then ZerosEnd(s, i + 1) else i
  }

  function DigitsEnd(s: string, i: nat): (e: nat)
    requires i <= |s|
    ensures i <= e <= |s|
    decreases |s| - i
  {
    if i < |s| && IsDigit(s[i]) then DigitsEnd(s, i + 1) else i
  }

  /** A run of digits from i: zeros, then the rest. */
  function RunEnd(s: string, i: nat): (e: nat)
    requires i <= |s|
    ensures i <= e <= |s|
  {
    DigitsEnd(s, ZerosEnd(s, i))
  }

  /** Strings of one length by their first difference. */
  function CompareDigits(s: string, t: string): int
    requires |s| == |t|
  {
    if s == "" then 0
    else
      var c := CompareDigits(s[..|s| - 1], t[..|t| - 1]);
      if c != 0 then c else Order(s[|s| - 1] < t[|t| - 1], s[|s| - 1] == t[|t| - 1])
  }

  /** Two digit runs: by length without leading zeros, digits, then total length. */
  function CompareRuns(s: string, t: string): int {
    var x, y := s[ZerosEnd(s, 0)..], t[ZerosEnd(t, 0)..];
    if |x| != |y| then Order(|x| < |y|, false)
    else
      var c := CompareDigits(x, y);
      if c != 0 then c else Order(|s| < |t|, |s| == |t|)
  }

  function CompareFrom(a: string, b: string, i: nat, j: nat): int
    requires i <= |a| && j <= |b|
    decreases |a| - i
  {
    if i == |a| || j == |b| then Order(j < |b|, i == |a| && j == |b|)
    else if IsDigit(a[i]) && IsDigit(b[j]) then
      var ea, eb := RunEnd(a, i), RunEnd(b, j);
      var c := CompareRuns(a[i..ea], b[j..eb]);
      if c != 0 then c else if i < ea then CompareFrom(a, b, ea, eb) else 0
    else if a[i] != b[j] then Order(a[i] < b[j], false)
    else CompareFrom(a, b, i + 1, j + 1)
  }

  function CompareNatural(a: string, b: string, lower: char -> char): int {
    CompareFrom(Lower(a, lower), Lower(b, lower), 0, 0)
  }

  function StartsWithCjk(s: string): bool {
    Trim(s) != "" && IsCjk(Trim(s)[0])
  }

  function NaturalCompare(a: string, b: string, lower: char -> char): int {
    if StartsWithCjk(a) != StartsWithCjk(b) then (if StartsWithCjk(a) then 1 else -1)
    else CompareNatural(a, b, lower)
  }

  predicate NaturalLess(a: string, b: string, lower: char -> char) {
    NaturalCompare(a, b, lower) < 0
  }

  // ---------------------------------------------------------------- the loops

  lemma {:induction false} EqualPrefixDecides(x: string, y: string, k: nat)
    requires |x| == |y| && k < |x| && x[..k] == y[..k] && x[k] != y[k]
    ensures CompareDigits(x, y) == Order(x[k] < y[k], false)
  {
    var n := |x| - 1;
    if k == n {
      EqualDigits(x[..n]);
    } else {
      assert x[..n][..k] == x[..k] && y[..n][..k] == y[..k];
      EqualPrefixDecides(x[..n], y[..n], k);
    }
  }

  lemma {:induction false} EqualDigits(x: string)
    ensures CompareDigits(x, x) == 0
  {
    if x != "" {
      EqualDigits(x[..|x| - 1]);
    }
  }

  lemma {:induction false} ZerosShift(s: string, i: nat, e: nat, k: nat)
    requires i + k <= e <= |s| && ZerosEnd(s, i) <= e && forall m :: i <= m < i + k ==> s[m] == '0'
    ensures ZerosEnd(s[i..e], k) + i == ZerosEnd(s, i + k)
    decreases e - i - k
  {
    var r := s[i..e];
    if i + k < e && s[i + k] == '0' {
      assert r[k] == '0';
      ZerosShift(s, i, e, k + 1);
    } else if i + k < e {
      assert r[k] == s[i + k];
    } else {
      AllZeros(s, i, k);
    }
  }

  lemma {:induction false} AllZeros(s: string, i: nat, k: nat)
    requires i + k <= |s| && forall m :: i <= m < i + k ==> s[m] == '0'
    ensures ZerosEnd(s, i) == ZerosEnd(s, i + k)
    decreases k
  {
    if k > 0 {
      AllZeros(s, i + 1, k - 1);
    }
  }

  /** compareNatural, index loops over two rune slices. */
  method CompareNaturalLoop(a: string, b: string, lower: char -> char) returns (c: int)
    ensures c == CompareNatural(a, b, lower)
  {
    var ra, rb := Lower(a, lower), Lower(b, lower);
    var i: nat, j: nat := 0, 0;
    hide Lower, IsDigit;
    while i < |ra| && j < |rb|
      invariant i <= |ra| && j <= |rb|
      invariant CompareFrom(ra, rb, i, j) == CompareFrom(ra, rb, 0, 0)
      decreases |ra| - i
    {
      if IsDigit(ra[i]) && IsDigit(rb[j]) {
        var ea, eb;
        c, ea, eb := CompareRunsLoop(ra, rb, i, j);
        if c != 0 {
          return c;
        }
        RunIsNotEmpty(ra, i);
        i, j := ea, eb;
      } else if ra[i] != rb[j] {
        return if ra[i] < rb[j] then -1 else 1;
      } else {
        i, j := i + 1, j + 1;
      }
    }
    c := if i == |ra| && j == |rb| then 0 else if i == |ra| then -1 else 1;
  }

  lemma RunIsNotEmpty(s: string, i: nat)
    requires i < |s| && IsDigit(s[i])
    ensures i < RunEnd(s, i)
  {
    hide IsDigit;
  }

  /** The run without its leading zeros. */
  lemma Stripped(s: string, i: nat)
    requires i <= |s|
    ensures var r := s[i..RunEnd(s, i)]; r[ZerosEnd(r, 0)..] == s[ZerosEnd(s, i)..RunEnd(s, i)]
  {
    ZerosShift(s, i, RunEnd(s, i), 0);
  }

  method CompareRunsLoop(a: string, b: string, i: nat, j: nat) returns (c: int, ea: nat, eb: nat)
    requires i <= |a| && j <= |b|
    ensures ea == RunEnd(a, i) && eb == RunEnd(b, j)
    ensures c == CompareRuns(a[i..ea], b[j..eb])
  {
    Stripped(a, i);
    Stripped(b, j);
    hide IsDigit, DigitsEnd, ZerosEnd, CompareDigits;
    var ia := SkipZeros(a, i);
    var ja := SkipZeros(b, j);
    ea := SkipDigits(a, ia);
    eb := SkipDigits(b, ja);
    if ea - ia != eb - ja {
      c := if ea - ia < eb - ja then -1 else 1;
    } else {
      c := CompareDigitsLoop(a, b, ia, ja, ea - ia);
      if c == 0 {
        c := if ea - i == eb - j then 0 else if ea - i < eb - j then -1 else 1;
      }
    }
  }

  method CompareDigitsLoop(a: string, b: string, ia: nat, ja: nat, n: nat) returns (c: int)
    requires ia + n <= |a| && ja + n <= |b|
    ensures c == CompareDigits(a[ia..ia + n], b[ja..ja + n])
  {
    ghost var x, y := a[ia..ia + n], b[ja..ja + n];
    for k := 0 to n
      invariant x[..k] == y[..k]
    {
      assert x[k] == a[ia + k] && y[k] == b[ja + k];
      if a[ia + k] != b[ja + k] {
        EqualPrefixDecides(x, y, k);
        return if a[ia + k] < b[ja + k] then -1 else 1;
      }
      assert x[..k + 1] == x[..k] + [x[k]] && y[..k + 1] == y[..k] + [y[k]];
    }
    assert x[..n] == x && y[..n] == y;
    EqualDigits(x);
    c := 0;
  }

  method SkipZeros(s: string, i: nat) returns (e: nat)
    requires i <= |s|
    ensures e == ZerosEnd(s, i)
  {
    e := i;
    while e < |s| && s[e] == '0'
      invariant e <= |s| && ZerosEnd(s, e) == ZerosEnd(s, i)
    {
      e := e + 1;
    }
  }

  method SkipDigits(s: string, i: nat) returns (e: nat)
    requires i <= |s|
    ensures e == DigitsEnd(s, i)
  {
    hide IsDigit;
    e := i;
    while e < |s| && IsDigit(s[e])
      invariant e <= |s| && DigitsEnd(s, e) == DigitsEnd(s, i)
    {
      e := e + 1;
    }
  }
}
