/** When natural order is an order: on strings whose digits are all ASCII it is total, and on
    no richer alphabet. */
module NaturalOrder {
  import opened Text
  import opened NatSort
  import opened Seqs

  // ---------------------------------------------------------------- numbers

  function Sign(x: int, y: int): int {
    Order(x < y, x == y)
  }

  lemma DigitsSlice(s: string, i: nat, j: nat)
    requires Digits(s) && i <= j <= |s|
    ensures Digits(s[i..j])
  {
    forall k | 0 <= k < j - i ensures '0' <= s[i..j][k] <= '9' {
      assert s[i..j][k] == s[i + k];
    }
  }

  /** A longer number that does not start with zero is larger. */
  lemma {:induction false} LongerIsLarger(x: string, y: string)
    requires Digits(x) && Digits(y) && |x| < |y| && y[0] != '0'
    ensures Value(x) < Value(y)
  {
    var n := |y| - 1;
    DigitsSlice(y, 0, n);
    if x == "" {
      if n > 0 {
        LongerIsLarger("", y[..n]);
      }
    } else {
      DigitsSlice(x, 0, |x| - 1);
      LongerIsLarger(x[..|x| - 1], y[..n]);
    }
  }

  lemma {:induction false} SameLengthByValue(x: string, y: string)
    requires Digits(x) && Digits(y) && |x| == |y|
    ensures CompareDigits(x, y) == Sign(Value(x), Value(y))
  {
    if x != "" {
      var n := |x| - 1;
      DigitsSlice(x, 0, n);
      DigitsSlice(y, 0, n);
      SameLengthByValue(x[..n], y[..n]);
    }
  }

  lemma {:induction false} ZerosAddNothing(s: string)
    requires Digits(s) && s != "" && s[0] == '0'
    ensures Digits(s[1..]) && Value(s[1..]) == Value(s)
  {
    var n := |s| - 1;
    DigitsSlice(s, 1, |s|);
    DigitsSlice(s, 0, n);
    if n == 0 {
      assert s == "0" && s[1..] == "" && s[..0] == "";
    } else {
      ZerosAddNothing(s[..n]);
      assert s[..n][1..] == s[1..][..n - 1];
    }
  }

  lemma {:induction false} StrippedValue(s: string, i: nat)
    requires Digits(s) && i <= |s|
    ensures var x := s[i..][ZerosEnd(s, i) - i..];
            Digits(s[i..]) && Digits(x) && Value(x) == Value(s[i..]) && (x != "" ==> x[0] != '0')
    decreases |s| - i
  {
    DigitsSlice(s, i, |s|);
    hide Digits, Value;
    if i < |s| && s[i] == '0' {
      StrippedValue(s, i + 1);
      ZerosAddNothing(s[i..]);
      assert s[i..][1..] == s[i + 1..];
      var e := ZerosEnd(s, i);
      assert e == ZerosEnd(s, i + 1);
      hide ZerosEnd;
      assert s[i..][e - i..] == s[i + 1..][e - (i + 1)..];
    } else {
      assert s[i..][0..] == s[i..];
    }
  }

  /** Two runs of ASCII digits: by numeric value, then fewer leading zeros first. */
  lemma RunsByValue(s: string, t: string)
    requires Digits(s) && Digits(t)
    ensures CompareRuns(s, t) == if Value(s) != Value(t) then Sign(Value(s), Value(t)) else Sign(|s|, |t|)
  {
    StrippedValue(s, 0);
    StrippedValue(t, 0);
    assert s[0..] == s && t[0..] == t;
    var x, y := s[ZerosEnd(s, 0)..], t[ZerosEnd(t, 0)..];
    if |x| < |y| {
      LongerIsLarger(x, y);
    } else if |y| < |x| {
      LongerIsLarger(y, x);
    } else {
      SameLengthByValue(x, y);
    }
  }

  lemma {:induction false} SameValueSameDigits(s: string, t: string)
    requires Digits(s) && Digits(t) && |s| == |t| && Value(s) == Value(t)
    ensures s == t
  {
    if s != "" {
      var n := |s| - 1;
      DigitsSlice(s, 0, n);
      DigitsSlice(t, 0, n);
      SameValueSameDigits(s[..n], t[..n]);
      assert s == s[..n] + [s[n]] && t == t[..n] + [t[n]];
    }
  }

  // ---------------------------------------------------------------- tokens

  /** A run of digits, or one other character. */
  predicate IsToken(t: string) {
    t != "" && (Digits(t) || (|t| == 1 && !IsDigit(t[0])))
  }

  /** Where a token stands: characters below the digits, numbers, characters above. */
  datatype Key = Key(group: int, value: int, length: int)

  function KeyOf(t: string): Key
    requires IsToken(t)
  {
    if Digits(t) then Key(1, Value(t), |t|) else Key(if t[0] < '0' then 0 else 2, t[0] as int, 1)
  }

  function CompareKeys(k: Key, l: Key): int {
    if k.group != l.group then Sign(k.group, l.group)
    else if k.value != l.value then Sign(k.value, l.value)
    else Sign(k.length, l.length)
  }

  lemma KeysAreTokens(t: string, u: string)
    requires IsToken(t) && IsToken(u) && KeyOf(t) == KeyOf(u)
    ensures t == u
  {
    if Digits(t) {
      SameValueSameDigits(t, u);
    }
  }

  predicate AreTokens(ts: seq<string>) {
    forall i :: 0 <= i < |ts| ==> IsToken(ts[i])
  }

  /** The reference order: token by token, a proper prefix first. */
  function CompareTokens(ts: seq<string>, us: seq<string>): int
    requires AreTokens(ts) && AreTokens(us)
  {
    if ts == [] || us == [] then Order(us != [], ts == us)
    else
      var c := CompareKeys(KeyOf(ts[0]), KeyOf(us[0]));
      if c != 0 then c else CompareTokens(ts[1..], us[1..])
  }

  lemma {:induction false} TokensAntisymmetric(ts: seq<string>, us: seq<string>)
    requires AreTokens(ts) && AreTokens(us)
    ensures CompareTokens(us, ts) == -CompareTokens(ts, us)
    ensures CompareTokens(ts, us) == 0 <==> ts == us
  {
    hide KeyOf, IsToken;
    if ts != [] && us != [] {
      TokensAntisymmetric(ts[1..], us[1..]);
      if KeyOf(ts[0]) == KeyOf(us[0]) {
        KeysAreTokens(ts[0], us[0]);
      }
      assert ts == [ts[0]] + ts[1..] && us == [us[0]] + us[1..];
    }
  }

  lemma {:induction false} TokensTransitive(ts: seq<string>, us: seq<string>, vs: seq<string>)
    requires AreTokens(ts) && AreTokens(us) && AreTokens(vs)
    requires CompareTokens(ts, us) <= 0 && CompareTokens(us, vs) <= 0
    ensures CompareTokens(ts, vs) <= 0
  {
    hide KeyOf, IsToken;
    if ts != [] && us != [] && vs != [] && KeyOf(ts[0]) == KeyOf(us[0]) == KeyOf(vs[0]) {
      TokensTransitive(ts[1..], us[1..], vs[1..]);
    }
  }

  // ---------------------------------------------------------------- the code follows tokens

  function Tokens(s: string, i: nat): seq<string>
    requires i <= |s|
    decreases |s| - i
  {
    if i == |s| then []
    else if IsDigit(s[i]) && i < RunEnd(s, i) then [s[i..RunEnd(s, i)]] + Tokens(s, RunEnd(s, i))
    else [s[i..i + 1]] + Tokens(s, i + 1)
  }

  lemma {:induction false} ZerosAreDigits(s: string, i: nat)
    requires i <= |s|
    ensures forall k :: i <= k < ZerosEnd(s, i) ==> s[k] == '0'
    decreases |s| - i
  {
    if i < |s| && s[i] == '0' {
      ZerosAreDigits(s, i + 1);
    }
  }

  lemma {:induction false} DigitsAreDigits(s: string, i: nat)
    requires i <= |s| && AsciiDigits(s)
    ensures forall k :: i <= k < DigitsEnd(s, i) ==> IsAsciiDigit(s[k])
    decreases |s| - i
  {
    hide IsDigit;
    if i < |s| && IsDigit(s[i]) {
      DigitsAreDigits(s, i + 1);
    }
  }

  lemma RunIsDigits(s: string, i: nat)
    requires i <= |s| && AsciiDigits(s)
    ensures Digits(s[i..RunEnd(s, i)])
  {
    hide IsDigit;
    ZerosAreDigits(s, i);
    DigitsAreDigits(s, ZerosEnd(s, i));
  }

  lemma {:induction false} TokensAreTokens(s: string, i: nat)
    requires i <= |s| && AsciiDigits(s)
    ensures AreTokens(Tokens(s, i))
    decreases |s| - i
  {
    hide IsForeignDigit;
    if i < |s| {
      RunIsDigits(s, i);
      if IsDigit(s[i]) {
        RunIsNotEmpty(s, i);
        TokensAreTokens(s, RunEnd(s, i));
      } else {
        TokensAreTokens(s, i + 1);
      }
    }
  }

  /** Nothing is lost by cutting into tokens. */
  lemma {:induction false} TokensSpell(s: string, i: nat)
    requires i <= |s|
    ensures Flatten(Tokens(s, i)) == s[i..]
    decreases |s| - i
  {
    hide IsDigit;
    if i < |s| {
      var e := if IsDigit(s[i]) && i < RunEnd(s, i) then RunEnd(s, i) else i + 1;
      TokensSpell(s, e);
      assert Tokens(s, i) == [s[i..e]] + Tokens(s, e);
      assert ([s[i..e]] + Tokens(s, e))[1..] == Tokens(s, e);
      assert s[i..] == s[i..e] + s[e..];
    }
  }

  lemma {:induction false} CodeFollowsTokens(a: string, b: string, i: nat, j: nat)
    requires i <= |a| && j <= |b| && AsciiDigits(a) && AsciiDigits(b)
    ensures AreTokens(Tokens(a, i)) && AreTokens(Tokens(b, j))
    ensures CompareFrom(a, b, i, j) == CompareTokens(Tokens(a, i), Tokens(b, j))
    decreases |a| - i
  {
    TokensAreTokens(a, i);
    TokensAreTokens(b, j);
    hide IsForeignDigit, CompareRuns, RunEnd, Value;
    if i < |a| && j < |b| {
      var ts, us := Tokens(a, i), Tokens(b, j);
      if IsDigit(a[i]) {
        RunIsNotEmpty(a, i);
        RunIsDigits(a, i);
      }
      if IsDigit(b[j]) {
        RunIsNotEmpty(b, j);
        RunIsDigits(b, j);
      }
      if IsDigit(a[i]) && IsDigit(b[j]) {
        RunsByValue(a[i..RunEnd(a, i)], b[j..RunEnd(b, j)]);
        CodeFollowsTokens(a, b, RunEnd(a, i), RunEnd(b, j));
      } else if a[i] == b[j] {
        CodeFollowsTokens(a, b, i + 1, j + 1);
      }
    }
  }

  // ---------------------------------------------------------------- order laws

  lemma CompareIsAntisymmetric(a: string, b: string, lower: char -> char)
    requires AsciiDigits(Lower(a, lower)) && AsciiDigits(Lower(b, lower))
    ensures CompareNatural(b, a, lower) == -CompareNatural(a, b, lower)
    ensures CompareNatural(a, b, lower) == 0 <==> Lower(a, lower) == Lower(b, lower)
  {
    hide Lower, IsDigit, CompareFrom, Tokens, CompareTokens, AsciiDigits, AreTokens;
    var x, y := Lower(a, lower), Lower(b, lower);
    CodeFollowsTokens(x, y, 0, 0);
    CodeFollowsTokens(y, x, 0, 0);
    TokensAntisymmetric(Tokens(x, 0), Tokens(y, 0));
    TokensSpell(x, 0);
    TokensSpell(y, 0);
    assert x[0..] == x && y[0..] == y;
  }

  lemma CompareIsTransitive(a: string, b: string, c: string, lower: char -> char)
    requires AsciiDigits(Lower(a, lower)) && AsciiDigits(Lower(b, lower)) && AsciiDigits(Lower(c, lower))
    requires CompareNatural(a, b, lower) <= 0 && CompareNatural(b, c, lower) <= 0
    ensures CompareNatural(a, c, lower) <= 0
  {
    hide Lower, IsDigit, CompareFrom, Tokens, CompareTokens, AsciiDigits, AreTokens;
    var x, y, z := Lower(a, lower), Lower(b, lower), Lower(c, lower);
    CodeFollowsTokens(x, y, 0, 0);
    CodeFollowsTokens(y, z, 0, 0);
    CodeFollowsTokens(x, z, 0, 0);
    TokensTransitive(Tokens(x, 0), Tokens(y, 0), Tokens(z, 0));
  }

  /** A three-way comparison that orders a set of things, ties allowed. */
  ghost predicate Orders<T(!new)>(compare: (T, T) -> int, domain: T -> bool) {
    && (forall a, b :: domain(a) && domain(b) ==> (compare(a, b) < 0 <==> compare(b, a) > 0))
    && forall a, b, c :: domain(a) && domain(b) && domain(c) && compare(a, b) <= 0 && compare(b, c) <= 0 ==> compare(a, c) <= 0
  }

  /** What sorting by `less` asks for: irreflexive, transitive, and ties an equivalence. */
  ghost predicate StrictWeakOrder<T(!new)>(less: (T, T) -> bool, domain: T -> bool) {
    && (forall a :: domain(a) ==> !less(a, a))
    && (forall a, b, c :: domain(a) && domain(b) && domain(c) && less(a, b) && less(b, c) ==> less(a, c))
    && forall a, b, c :: domain(a) && domain(b) && domain(c) && !less(a, b) && !less(b, a) && !less(b, c) && !less(c, b)
         ==> !less(a, c) && !less(c, a)
  }

  lemma OrdersGivesStrictWeak<T(!new)>(compare: (T, T) -> int, less: (T, T) -> bool, domain: T -> bool)
    requires Orders(compare, domain)
    requires forall a, b :: domain(a) && domain(b) ==> (less(a, b) <==> compare(a, b) < 0)
    ensures StrictWeakOrder(less, domain)
  {
  }

  /** A tie-break: the first comparison decides, else the second. */
  lemma OrdersInTurn<T(!new)>(first: (T, T) -> int, second: (T, T) -> int, both: (T, T) -> int, domain: T -> bool)
    requires Orders(first, domain) && Orders(second, domain)
    requires forall a, b :: both(a, b) == if first(a, b) != 0 then first(a, b) else second(a, b)
    ensures Orders(both, domain)
  {
    forall a, b, c | domain(a) && domain(b) && domain(c) && both(a, b) <= 0 && both(b, c) <= 0
      ensures both(a, c) <= 0
    {
      assert first(a, b) <= 0 && first(b, c) <= 0;
      assert first(a, c) <= 0;
      if first(a, c) == 0 {
        assert first(c, a) <= 0 && first(c, b) <= 0 && first(b, a) <= 0;
      }
    }
  }

  /** Strings that fold to ASCII digits only. */
  predicate FoldsToAscii(s: string, lower: char -> char) {
    AsciiDigits(Lower(s, lower))
  }

  lemma NaturalCompareOrders(lower: char -> char)
    ensures Orders((a: string, b: string) => NaturalCompare(a, b, lower), (s: string) => FoldsToAscii(s, lower))
  {
    hide StartsWithCjk, CompareNatural, AsciiDigits, Lower;
    var compare := (a: string, b: string) => NaturalCompare(a, b, lower);
    var domain := (s: string) => FoldsToAscii(s, lower);
    forall a, b | domain(a) && domain(b) ensures compare(a, b) < 0 <==> compare(b, a) > 0 {
      CompareIsAntisymmetric(a, b, lower);
    }
    forall a, b, c | domain(a) && domain(b) && domain(c) && compare(a, b) <= 0 && compare(b, c) <= 0
      ensures compare(a, c) <= 0
    {
      if StartsWithCjk(a) == StartsWithCjk(b) == StartsWithCjk(c) {
        CompareIsTransitive(a, b, c, lower);
      }
    }
  }

  lemma NaturalLessIsStrictWeak(lower: char -> char)
    ensures StrictWeakOrder((a: string, b: string) => NaturalLess(a, b, lower), (s: string) => FoldsToAscii(s, lower))
  {
    NaturalCompareOrders(lower);
    hide FoldsToAscii, NaturalCompare;
    OrdersGivesStrictWeak((a: string, b: string) => NaturalCompare(a, b, lower),
                          (a: string, b: string) => NaturalLess(a, b, lower), (s: string) => FoldsToAscii(s, lower));
  }

  // ---------------------------------------------------------------- the guide's channels

  /** A guide row as the sort sees it. */
  datatype Row = Row(name: string, id: string)

  function SortKey(r: Row): string {
    if Trim(r.name) == "" then r.id else Trim(r.name)
  }

  /** guideChannelLess. */
  predicate ChannelLess(a: Row, b: Row, lower: char -> char) {
    var c := NaturalCompare(SortKey(a), SortKey(b), lower);
    if c != 0 then c < 0 else NaturalLess(a.id, b.id, lower)
  }

  predicate RowFolds(r: Row, lower: char -> char) {
    FoldsToAscii(SortKey(r), lower) && FoldsToAscii(r.id, lower)
  }

  lemma OrdersAlong<S(!new), T(!new)>(compare: (T, T) -> int, domain: T -> bool, key: S -> T, along: (S, S) -> int, within: S -> bool)
    requires Orders(compare, domain)
    requires forall a, b :: along(a, b) == compare(key(a), key(b))
    requires forall a :: within(a) ==> domain(key(a))
    ensures Orders(along, within)
  {
  }

  lemma ChannelLessIsStrictWeak(lower: char -> char)
    ensures StrictWeakOrder((a: Row, b: Row) => ChannelLess(a, b, lower), (r: Row) => RowFolds(r, lower))
  {
    NaturalCompareOrders(lower);
    hide FoldsToAscii, NaturalCompare, SortKey;
    var compare := (a: string, b: string) => NaturalCompare(a, b, lower);
    var domain := (s: string) => FoldsToAscii(s, lower);
    var within := (r: Row) => RowFolds(r, lower);
    var byKey := (a: Row, b: Row) => NaturalCompare(SortKey(a), SortKey(b), lower);
    var byId := (a: Row, b: Row) => NaturalCompare(a.id, b.id, lower);
    var both := (a: Row, b: Row) => if byKey(a, b) != 0 then byKey(a, b) else byId(a, b);
    OrdersAlong(compare, domain, (r: Row) => SortKey(r), byKey, within);
    OrdersAlong(compare, domain, (r: Row) => r.id, byId, within);
    OrdersInTurn(byKey, byId, both, within);
    OrdersGivesStrictWeak(both, (a: Row, b: Row) => ChannelLess(a, b, lower), within);
  }

  // ---------------------------------------------------------------- names in Chinese, Japanese or Korean

  /** The first character that is no space is at i. */
  predicate StartsAt(s: string, i: nat) {
    i < |s| && !IsSpace(s[i]) && Spaces(s[..i])
  }

  lemma {:induction false} TrimStarts(s: string, i: nat)
    requires StartsAt(s, i)
    ensures Trim(s) != "" && Trim(s)[0] == s[i]
    decreases i
  {
    hide IsSpace;
    if i == 0 {
      KeepsFirst(s);
    } else {
      assert s[0] == s[..i][0];
      assert s[1..][..i - 1] == s[..i][1..];
      TrimStarts(s[1..], i - 1);
    }
  }

  lemma NotBlank(s: string, i: nat)
    ensures StartsAt(s, i) ==> !Spaces(s)
  {
  }

  /** A name that starts with such a character comes after every name that does not and after
      blank ones; otherwise natural order decides. */
  lemma CjkNamesComeLast(a: string, i: nat, b: string, j: nat, lower: char -> char)
    requires StartsAt(a, i) && (StartsAt(b, j) || Spaces(b))
    ensures IsCjk(a[i]) && (Spaces(b) || !IsCjk(b[j])) ==> NaturalLess(b, a, lower) && !NaturalLess(a, b, lower)
    ensures !IsCjk(a[i]) && StartsAt(b, j) && IsCjk(b[j]) ==> NaturalLess(a, b, lower)
    ensures !IsCjk(a[i]) && (Spaces(b) || !IsCjk(b[j])) ==> NaturalCompare(a, b, lower) == CompareNatural(a, b, lower)
    ensures IsCjk(a[i]) && StartsAt(b, j) && IsCjk(b[j]) ==> NaturalCompare(a, b, lower) == CompareNatural(a, b, lower)
  {
    hide IsSpace, IsCjk, Trim, CompareNatural;
    TrimStarts(a, i);
    NotBlank(b, j);
    if Spaces(b) {
      AllSpaces(b);
    } else {
      TrimStarts(b, j);
    }
  }

  /** x between spaces. */
  ghost predicate IsPadded(s: string, x: string) {
    exists before, after :: Spaces(before) && Spaces(after) && s == before + x + after
  }

  /** The guide's channels: by trimmed name, by id where the name is blank; rows that tie
      there, by id. */
  lemma ChannelsByNameThenId(a: Row, x: string, b: Row, y: string, lower: char -> char)
    requires Trimmed(x) && Trimmed(y)
    requires IsPadded(a.name, x) && IsPadded(b.name, y)
    ensures var p, q := if x == "" then a.id else x, if y == "" then b.id else y;
            (NaturalLess(p, q, lower) ==> ChannelLess(a, b, lower))
            && (NaturalCompare(p, q, lower) > 0 ==> !ChannelLess(a, b, lower))
            && (NaturalCompare(p, q, lower) == 0 ==> ChannelLess(a, b, lower) == NaturalLess(a.id, b.id, lower))
  {
    hide IsSpace, Spaces, NaturalCompare;
    var before, after :| Spaces(before) && Spaces(after) && a.name == before + x + after;
    TrimTakesSpaces(before, x, after);
    var before', after' :| Spaces(before') && Spaces(after') && b.name == before' + y + after';
    TrimTakesSpaces(before', y, after');
  }

  // ---------------------------------------------------------------- and not beyond ASCII

  /** Strings over an alphabet. */
  predicate Over(s: string, alphabet: set<char>) {
    forall i :: 0 <= i < |s| ==> s[i] in alphabet
  }

  ghost predicate TransitiveOver(alphabet: set<char>) {
    forall a, b, c :: Over(a, alphabet) && Over(b, alphabet) && Over(c, alphabet) ==>
      CompareFrom(a, b, 0, 0) <= 0 && CompareFrom(b, c, 0, 0) <= 0 ==> CompareFrom(a, c, 0, 0) <= 0
  }

  /** Any other digit closes a cycle: it is below "10", "10" below "a", and "a" below it. */
  lemma ForeignDigitCycle(d: char)
    requires IsForeignDigit(d)
    ensures CompareFrom([d], "10", 0, 0) < 0 && CompareFrom("10", "a", 0, 0) < 0 && CompareFrom("a", [d], 0, 0) < 0
  {
    assert d >= '\U{0660}';
    hide IsForeignDigit;
    NotForeign();
    assert [d][0] == d && !IsDigit('a');
    assert ZerosEnd([d], 0) == 0 && DigitsEnd([d], 1) == 1 && DigitsEnd([d], 0) == 1;
    assert ZerosEnd("10", 0) == 0 && DigitsEnd("10", 2) == 2 && DigitsEnd("10", 1) == 2 && DigitsEnd("10", 0) == 2;
    assert [d][0..1] == [d] && "10"[0..2] == "10";
  }

  lemma NotForeign()
    ensures forall c :: c <= '\U{7f}' ==> !IsForeignDigit(c)
  {
  }

  /** Exactly the alphabets without other digits make the comparison an order. */
  lemma TransitiveIffAsciiDigits(alphabet: set<char>)
    requires '0' in alphabet && '1' in alphabet && 'a' in alphabet
    ensures TransitiveOver(alphabet) <==> forall d :: d in alphabet && IsDigit(d) ==> IsAsciiDigit(d)
  {
    if d :| d in alphabet && IsDigit(d) && !IsAsciiDigit(d) {
      ForeignDigitCycle(d);
      assert Over([d], alphabet) && Over("10", alphabet) && Over("a", alphabet);
      Cycle(alphabet, [d], "10", "a");
    } else {
      hide IsDigit, CompareFrom;
      forall a, b, c | Over(a, alphabet) && Over(b, alphabet) && Over(c, alphabet)
                       && CompareFrom(a, b, 0, 0) <= 0 && CompareFrom(b, c, 0, 0) <= 0
        ensures CompareFrom(a, c, 0, 0) <= 0
      {
        AsIs(a);
        AsIs(b);
        AsIs(c);
        CompareIsTransitive(a, b, c, ch => ch);
      }
    }
  }

  lemma AsIs(s: string)
    ensures Lower(s, ch => ch) == s
  {
  }

  lemma Cycle(alphabet: set<char>, a: string, b: string, c: string)
    requires Over(a, alphabet) && Over(b, alphabet) && Over(c, alphabet)
    requires CompareFrom(a, b, 0, 0) < 0 && CompareFrom(b, c, 0, 0) < 0 && CompareFrom(a, c, 0, 0) > 0
    ensures !TransitiveOver(alphabet)
  {
  }
}
