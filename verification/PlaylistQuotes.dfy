/** What double quotes do to a printed playlist: the parser does not know the escape the
    printer writes for them. */
module PlaylistQuotes {
  import opened Seqs
  import opened Text
  import opened RelayXml
  import opened M3u
  import opened PlaylistRoundTrip

  // ---------------------------------------------------------------- counting quotes

  /** The number of double quotes is odd. */
  function OddQuotes(s: string): bool {
    s != "" && ((s[0] == '"') != OddQuotes(s[1..]))
  }

  lemma {:induction false} OddConcat(a: string, b: string)
    ensures OddQuotes(a + b) == (OddQuotes(a) != OddQuotes(b))
  {
    if a == "" {
      assert a + b == b;
    } else {
      assert (a + b)[1..] == a[1..] + b;
      OddConcat(a[1..], b);
    }
  }

  lemma {:induction false} NoneIsEven(s: string)
    requires Without(s, '"')
    ensures !OddQuotes(s)
  {
    if s != "" {
      NoneIsEven(s[1..]);
    }
  }

  lemma {:induction false} CommaFree(s: string, inQuote: bool)
    requires Without(s, ',')
    ensures QuoteState(s, inQuote) == Some(inQuote != OddQuotes(s))
  {
    if s != "" {
      CommaFree(s[1..], if s[0] == '"' then !inQuote else inQuote);
    }
  }

  lemma {:induction false} NoUnquotedComma(s: string, i: nat, inQuote: bool)
    requires i <= |s| && QuoteState(s[i..], inQuote).Some?
    ensures UnquotedComma(s, i, inQuote) == |s|
    decreases |s| - i
  {
    if i < |s| {
      assert s[i..][0] == s[i] && s[i..][1..] == s[i + 1..];
      NoUnquotedComma(s, i + 1, if s[i] == '"' then !inQuote else inQuote);
    }
  }

  lemma {:induction false} EscapingKeepsOddness(s: string)
    ensures OddQuotes(EscapeQuotes(s)) == OddQuotes(s)
    ensures Without(s, ',') ==> Without(EscapeQuotes(s), ',')
    ensures Without(s, '=') ==> Without(EscapeQuotes(s), '=')
    ensures Without(EscapeQuotes(s), '"') <==> Without(s, '"')
  {
    if s != "" {
      EscapingKeepsOddness(s[1..]);
      var head := if s[0] == '"' then "\\\"" else [s[0]];
      OneCharOdd(s[0]);
      OddConcat(head, EscapeQuotes(s[1..]));
      EscapedFront(s);
    }
  }

  lemma OneCharOdd(c: char)
    ensures OddQuotes("\\\"") && (OddQuotes([c]) <==> c == '"')
  {
    assert "\\\""[1..] == "\"" && "\""[1..] == "" && [c][1..] == "";
  }

  lemma EscapedFront(s: string)
    requires s != ""
    requires Without(s[1..], ',') ==> Without(EscapeQuotes(s[1..]), ',')
    requires Without(s[1..], '=') ==> Without(EscapeQuotes(s[1..]), '=')
    requires Without(EscapeQuotes(s[1..]), '"') <==> Without(s[1..], '"')
    ensures Without(s, ',') ==> Without(EscapeQuotes(s), ',')
    ensures Without(s, '=') ==> Without(EscapeQuotes(s), '=')
    ensures Without(EscapeQuotes(s), '"') <==> Without(s, '"')
  {
    var head, rest := if s[0] == '"' then "\\\"" else [s[0]], EscapeQuotes(s[1..]);
    assert EscapeQuotes(s) == head + rest && s == [s[0]] + s[1..];
    hide EscapeQuotes, Without;
    forall c ensures Without(s, c) <==> s[0] != c && Without(s[1..], c) {
      WithoutConcat([s[0]], s[1..], c);
    }
    forall c ensures Without(head + rest, c) <==> Without(head, c) && Without(rest, c) {
      WithoutConcat(head, rest, c);
    }
    OneChar(s[0]);
  }

  lemma WithoutConcat(a: string, b: string, c: char)
    ensures Without(a + b, c) <==> Without(a, c) && Without(b, c)
    ensures |a| == 1 ==> (Without(a, c) <==> a[0] != c)
  {
    if Without(a + b, c) {
      forall i | 0 <= i < |a| ensures a[i] != c {
        assert (a + b)[i] == a[i];
      }
      forall i | 0 <= i < |b| ensures b[i] != c {
        assert (a + b)[|a| + i] == b[i];
      }
    }
  }

  lemma OneChar(c: char)
    ensures Without([c], '"') <==> c != '"'
    ensures Without("\\\"", ',') && Without("\\\"", '=') && !Without("\\\"", '"')
  {
    assert "\\\""[1] == '"' && [c][0] == c;
  }

  lemma {:induction false} SanitizingKeepsOddness(s: string)
    ensures OddQuotes(Sanitize(s)) == OddQuotes(s)
    ensures forall c :: c in {',', '=', '"'} ==> (Without(Sanitize(s), c) <==> Without(s, c))
  {
    if s != "" {
      SanitizingKeepsOddness(s[1..]);
      assert Sanitize(s)[1..] == Sanitize(s[1..]);
      forall c | c in {',', '=', '"'} ensures Without(Sanitize(s), c) <==> Without(s, c) {
        SanitizedWithout(s, c);
      }
    }
  }

  lemma SanitizedWithout(s: string, c: char)
    requires c in {',', '=', '"'}
    ensures Without(Sanitize(s), c) <==> Without(s, c)
  {
    forall i | 0 <= i < |s| ensures Sanitize(s)[i] == c <==> s[i] == c {
    }
  }

  lemma EscapedField(s: string)
    ensures OddQuotes(EscapeAttr(s)) == OddQuotes(s)
    ensures Without(s, ',') ==> Without(EscapeAttr(s), ',')
    ensures Without(s, '=') ==> Without(EscapeAttr(s), '=')
    ensures Without(EscapeAttr(s), '"') <==> Without(s, '"')
  {
    SanitizingKeepsOddness(s);
    EscapingKeepsOddness(Sanitize(s));
    hide EscapeQuotes, Sanitize, OddQuotes, Without;
  }

  // ---------------------------------------------------------------- which lines are lost

  function OddValues(attrs: seq<Attr>): bool {
    attrs != [] && (OddQuotes(attrs[0].value) != OddValues(attrs[1..]))
  }

  predicate CommaFreeAttrs(attrs: seq<Attr>) {
    forall i :: 0 <= i < |attrs| ==> GoodKey(attrs[i].key) && Without(attrs[i].value, ',')
  }

  lemma AttrTextParity(a: Attr)
    requires GoodKey(a.key) && Without(a.value, ',')
    ensures OddQuotes(AttrText(a)) == OddQuotes(a.value) && Without(AttrText(a), ',')
  {
    NoneIsEven(a.key);
    Delimiters();
    hide OddQuotes;
    OddConcat(a.key, "=\"");
    OddConcat(a.key + "=\"", a.value);
    OddConcat(a.key + "=\"" + a.value, "\"");
  }

  lemma Delimiters()
    ensures OddQuotes("=\"") && OddQuotes("\"") && !OddQuotes(" ") && !OddQuotes("-1 ") && !OddQuotes(",") && !OddQuotes("")
  {
    assert "=\""[1..] == "\"" && "\""[1..] == "" && " "[1..] == "" && ","[1..] == "";
    assert "-1 "[1..] == "1 " && "1 "[1..] == " ";
  }

  lemma {:induction false} JoinParity(attrs: seq<Attr>)
    requires CommaFreeAttrs(attrs)
    ensures OddQuotes(JoinAttrs(attrs)) == OddValues(attrs) && Without(JoinAttrs(attrs), ',')
  {
    Delimiters();
    if attrs != [] {
      AttrTextParity(attrs[0]);
      JoinParity(attrs[1..]);
      hide OddQuotes, AttrText;
      if |attrs| > 1 {
        OddConcat(AttrText(attrs[0]), " ");
        OddConcat(AttrText(attrs[0]) + " ", JoinAttrs(attrs[1..]));
      }
    }
  }

  /** With comma-free attributes and name, the comma between them is found exactly when the
      quotes before it are even in number. */
  lemma SeparatorFound(j: string, n: string)
    requires Without(j, ',') && Without(n, ',')
    ensures var rest := "-1 " + j + "," + n;
            UnquotedComma(rest, 0, false) == if OddQuotes(j) then |rest| else 3 + |j|
  {
    var pre, rest := "-1 " + j, "-1 " + j + "," + n;
    Delimiters();
    OddConcat("-1 ", j);
    assert Without(pre, ',');
    CommaFree(pre, false);
    if OddQuotes(j) {
      assert QuoteState(",", true) == Some(true) by {
        assert ","[1..] == "";
      }
      CommaFree(n, true);
      hide QuoteState, OddQuotes, Without;
      QuoteConcat(pre, ",", false);
      QuoteConcat(pre + ",", n, false);
      assert rest == pre + "," + n && rest[0..] == rest;
      NoUnquotedComma(rest, 0, false);
    } else {
      hide QuoteState, OddQuotes, Without;
      assert rest[0..3 + |j|] == pre;
      CommaFound(rest, 0, 3 + |j|, false);
    }
  }

  /** No comma in any field of the row. */
  predicate CommaFreeRow(r: Row) {
    Without(PublicTvgId(r.source, r.tvg), ',') && Without(r.name, ',') && Without(r.logo, ',') && Without(r.group, ',')
  }

  /** All that a row prints between quotes, its number aside. */
  function Quoted(r: Row): string {
    PublicTvgId(r.source, r.tvg) + r.name + r.logo + r.group
  }

  lemma {:induction false} OddValuesConcat(a: seq<Attr>, b: seq<Attr>)
    ensures OddValues(a + b) == (OddValues(a) != OddValues(b))
  {
    if a == [] {
      assert a + b == b;
    } else {
      assert (a + b)[1..] == a[1..] + b;
      OddValuesConcat(a[1..], b);
    }
  }

  lemma OneOddValue(cond: bool, a: Attr)
    ensures OddValues(When(cond, a)) == (cond && OddQuotes(a.value))
  {
    assert When(cond, a) == [] || When(cond, a)[1..] == [];
  }

  lemma CommaFreeWhen(cond: bool, a: Attr)
    requires cond ==> GoodKey(a.key) && Without(a.value, ',')
    ensures CommaFreeAttrs(When(cond, a))
  {
    hide GoodKey, Without;
  }

  lemma CommaFreeJoin(a: seq<Attr>, b: seq<Attr>)
    requires CommaFreeAttrs(a) && CommaFreeAttrs(b)
    ensures CommaFreeAttrs(a + b)
  {
    hide GoodKey, Without;
  }

  function NumberText(r: Row): string {
    if r.number > 0 then Itoa(r.number) else ""
  }

  lemma NumberIsPlain(r: Row)
    ensures Without(NumberText(r), ',') && Without(NumberText(r), '"') && !OddQuotes(NumberText(r))
  {
    if r.number > 0 {
      DigitsAreGood(Itoa(r.number));
    }
    NoneIsEven(NumberText(r));
  }

  lemma RowIsCommaFree(r: Row)
    requires CommaFreeRow(r)
    ensures CommaFreeAttrs(AttrsOf(r))
  {
    EscapedField(PublicTvgId(r.source, r.tvg));
    EscapedField(r.name);
    EscapedField(r.logo);
    EscapedField(r.group);
    NumberIsPlain(r);
    KeysAreGood();
    hide When, GoodKey, EscapeAttr, PublicTvgId, Without, Itoa, OddQuotes, CommaFreeAttrs;
    var pub := PublicTvgId(r.source, r.tvg);
    var name := Attr("tvg-name", EscapeAttr(r.name));
    CommaFreeWhen(pub != "", Attr("tvg-id", EscapeAttr(pub)));
    CommaFreeWhen(true, name);
    WhenTrue(name);
    CommaFreeWhen(r.logo != "", Attr("tvg-logo", EscapeAttr(r.logo)));
    CommaFreeWhen(r.number > 0, Attr("tvg-chno", NumberText(r)));
    CommaFreeWhen(r.group != "", Attr("group-title", EscapeAttr(r.group)));
    var a := When(pub != "", Attr("tvg-id", EscapeAttr(pub))) + [name];
    CommaFreeJoin(When(pub != "", Attr("tvg-id", EscapeAttr(pub))), [name]);
    var b := a + When(r.logo != "", Attr("tvg-logo", EscapeAttr(r.logo)));
    CommaFreeJoin(a, When(r.logo != "", Attr("tvg-logo", EscapeAttr(r.logo))));
    CommaFreeJoin(b, When(r.number > 0, Attr("tvg-chno", NumberText(r))));
    CommaFreeJoin(b + When(r.number > 0, Attr("tvg-chno", NumberText(r))), When(r.group != "", Attr("group-title", EscapeAttr(r.group))));
  }

  lemma RowParity(r: Row)
    ensures OddValues(AttrsOf(r)) == OddQuotes(Quoted(r))
  {
    EscapedField(PublicTvgId(r.source, r.tvg));
    EscapedField(r.name);
    EscapedField(r.logo);
    EscapedField(r.group);
    NumberIsPlain(r);
    Delimiters();
    hide When, GoodKey, EscapeAttr, PublicTvgId, Without, Itoa, OddQuotes, OddValues;
    var pub := PublicTvgId(r.source, r.tvg);
    var id, name := When(pub != "", Attr("tvg-id", EscapeAttr(pub))), Attr("tvg-name", EscapeAttr(r.name));
    var logo := When(r.logo != "", Attr("tvg-logo", EscapeAttr(r.logo)));
    var number := When(r.number > 0, Attr("tvg-chno", NumberText(r)));
    var group := When(r.group != "", Attr("group-title", EscapeAttr(r.group)));
    OneOddValue(pub != "", Attr("tvg-id", EscapeAttr(pub)));
    OneOddValue(true, name);
    WhenTrue(name);
    OneOddValue(r.logo != "", Attr("tvg-logo", EscapeAttr(r.logo)));
    OneOddValue(r.number > 0, Attr("tvg-chno", NumberText(r)));
    OneOddValue(r.group != "", Attr("group-title", EscapeAttr(r.group)));
    OddValuesConcat(id, [name]);
    OddValuesConcat(id + [name], logo);
    OddValuesConcat(id + [name] + logo, number);
    OddValuesConcat(id + [name] + logo + number, group);
    OddConcat(pub, r.name);
    OddConcat(pub + r.name, r.logo);
    OddConcat(pub + r.name + r.logo, r.group);
  }

  lemma {:induction false} AllQuoted(s: string, i: nat, inQuote: bool)
    requires i <= |s|
    ensures (UnquotedComma(s, i, inQuote) == |s|)
         == forall k :: i <= k < |s| && s[k] == ',' ==> OddQuotes(s[i..k]) != inQuote
    decreases |s| - i
  {
    if i < |s| {
      var q := if s[i] == '"' then !inQuote else inQuote;
      AllQuoted(s, i + 1, q);
      forall k | i < k < |s| ensures OddQuotes(s[i..k]) == ((s[i] == '"') != OddQuotes(s[i + 1..k])) {
        assert s[i..k][0] == s[i] && s[i..k][1..] == s[i + 1..k];
      }
      assert s[i..i] == "";
    }
  }

  /** Any line is rejected exactly when each of its commas stands behind an odd number of double
      quotes. */
  lemma AnyLineIsLostExactly(rest: string)
    ensures ParseInfo(rest) == None <==> forall k :: 0 <= k < |rest| && rest[k] == ',' ==> OddQuotes(rest[..k])
  {
    AllQuoted(rest, 0, false);
    hide OddQuotes, UnquotedComma, EntryFrom, ParseAttrs, AttrsPart, Trim;
    forall k | 0 <= k < |rest| ensures rest[0..k] == rest[..k] {
    }
  }

  /** A row of comma-free fields is rejected exactly when the double quotes in its id, name,
      logo and group are odd in number: then the comma before the name counts as quoted. */
  lemma LineIsLostExactly(r: Row, n: string)
    requires CommaFreeRow(r) && Without(n, ',')
    ensures ParseInfo("-1 " + JoinAttrs(AttrsOf(r)) + "," + n) == None <==> OddQuotes(Quoted(r))
  {
    RowIsCommaFree(r);
    RowParity(r);
    JoinParity(AttrsOf(r));
    hide AttrsOf, JoinAttrs, OddQuotes, Quoted, Without, OddValues, EntryFrom, ParseAttrs, AttrsPart, Trim;
    SeparatorFound(JoinAttrs(AttrsOf(r)), n);
  }

  // ---------------------------------------------------------------- what the parser reads

  /** A quoted value ends at its first double quote. */
  function UpToQuote(v: string): string {
    v[..Index(v, '"')]
  }

  /** What is left over of it, with the quote that should have ended it. */
  function LeftOver(v: string): string {
    if Without(v, '"') then "" else v[Index(v, '"') + 1..] + "\""
  }

  lemma FirstOff(q: char, x: string)
    ensures ([q] + x)[0] == q && ([q] + x)[1..] == x && |[q] + x| == |x| + 1
  {
  }

  lemma CutAt(before: string, last: string, more: string)
    requires '"' !in before
    ensures ValueAt("\"" + (before + "\"" + last) + "\"" + more) == (before, last + "\"" + more)
  {
    var q, x, after := "\"", before + "\"" + last, last + "\"" + more;
    IndexAfter(before, '"', after);
    hide Index;
    Assoc(q, x, q);
    Assoc(q, x + q, more);
    Assoc(before + q, last, q);
    Assoc(before + q, last + q, more);
    assert q == ['"'];
    var tail := (before + q) + after;
    assert q + x + q + more == ['"'] + tail;
    FirstOff('"', tail);
    assert tail[..|before|] == before && tail[|before| + 1..] == after;
  }

  lemma CutValue(v: string, more: string)
    requires !Without(v, '"')
    ensures ValueAt("\"" + v + "\"" + more) == (v[..Index(v, '"')], v[Index(v, '"') + 1..] + "\"" + more)
  {
    HasIndex(v);
    hide Index, Without, ValueAt;
    var end := Index(v, '"');
    assert v == v[..end] + "\"" + v[end + 1..];
    CutAt(v[..end], v[end + 1..], more);
  }

  lemma HasIndex(v: string)
    requires !Without(v, '"')
    ensures Index(v, '"') < |v| && v[Index(v, '"')] == '"' && '"' !in v[..Index(v, '"')]
  {
    assert exists i :: 0 <= i < |v| && v[i] == '"';
  }

  lemma QuotedValueEnds(v: string, more: string)
    ensures ValueAt("\"" + v + "\"" + more) == (UpToQuote(v), LeftOver(v) + more)
  {
    if Without(v, '"') {
      QuotedValue(v, more);
      PlainIsWhole(v);
      assert "" + more == more;
    } else {
      hide Index, Without, ValueAt;
      CutValue(v, more);
      HasIndex(v);
    }
  }

  /** What follows the attributes read so far. */
  function Tail(attrs: seq<Attr>): string {
    if attrs == [] then "" else " " + JoinAttrs(attrs)
  }

  lemma JoinFront(attrs: seq<Attr>)
    requires attrs != []
    ensures JoinAttrs(attrs) == AttrText(attrs[0]) + Tail(attrs[1..])
  {
    hide AttrText;
    if |attrs| == 1 {
      assert attrs[1..] == [];
    } else {
      assert AttrText(attrs[0]) + " " + JoinAttrs(attrs[1..]) == AttrText(attrs[0]) + (" " + JoinAttrs(attrs[1..]));
    }
  }

  lemma Regroup(k: string, v: string, m: string)
    ensures (k + "=\"" + v + "\"") + m == k + (['='] + ("\"" + v + "\"" + m))
  {
    assert "=\"" == ['='] + "\"";
    assert k + "=\"" == (k + ['=']) + "\"";
    assert (k + "=\"" + v + "\"") + m == (k + "=\"") + (v + "\"" + m);
    assert ((k + ['=']) + "\"") + (v + "\"" + m) == k + (['='] + ("\"" + (v + "\"" + m)));
    assert "\"" + (v + "\"" + m) == "\"" + v + "\"" + m;
  }

  /** The text of the attributes after g: a head that ends with the key, then the value. */
  lemma TailFront(g: string, attrs: seq<Attr>)
    requires attrs != []
    ensures g + Tail(attrs)
         == (g + " " + attrs[0].key) + (['='] + ("\"" + attrs[0].value + "\"" + Tail(attrs[1..])))
  {
    var b, more := attrs[0], Tail(attrs[1..]);
    JoinFront(attrs);
    Regroup(b.key, b.value, more);
    var tail := "\"" + b.value + "\"" + more;
    assert Tail(attrs) == " " + (b.key + (['='] + tail));
    hide Tail, JoinAttrs;
    Shift(g, b.key, ['='] + tail);
  }

  lemma Shift(g: string, k: string, x: string)
    ensures g + (" " + (k + x)) == (g + " " + k) + x
  {
  }

  /** Text that swallows the next key: it holds a quote, but no equals sign. */
  predicate Junk(g: string) {
    Without(g, '=') && !Without(g, '"')
  }

  /** No value holds a double quote as well as an equals sign. */
  predicate Separable(attrs: seq<Attr>) {
    forall i :: 0 <= i < |attrs| ==>
      GoodKey(attrs[i].key) && (Without(attrs[i].value, '"') || Without(attrs[i].value, '='))
  }

  lemma LeftOverIsJunk(v: string)
    requires Without(v, '"') || Without(v, '=')
    ensures LeftOver(v) == "" || Junk(LeftOver(v))
    ensures LeftOver(v) == "" <==> Without(v, '"')
  {
    if !Without(v, '"') {
      var g := LeftOver(v);
      assert g[|g| - 1] == '"';
    }
  }

  lemma {:induction false} SkipBlanksConcat(h: string, x: string)
    requires SkipBlanks(h) != ""
    ensures SkipBlanks(h + x) == SkipBlanks(h) + x
  {
    if IsBlank(h[0]) {
      assert (h + x)[1..] == h[1..] + x;
      SkipBlanksConcat(h[1..], x);
    }
  }

  lemma {:induction false} SkipBlanksKeeps(h: string, k: string)
    requires k != "" && !IsBlank(k[0])
    ensures SkipBlanks(h + k) != "" && |k| <= |SkipBlanks(h + k)|
    ensures Without(h + k, '=') ==> Without(SkipBlanks(h + k), '=')
    ensures Without(SkipBlanks(h + k), '"') ==> Without(h + k, '"')
  {
    if h == "" {
      assert h + k == k;
    } else {
      assert (h + k)[1..] == h[1..] + k;
      if IsBlank(h[0]) {
        SkipBlanksKeeps(h[1..], k);
      }
    }
  }

  lemma {:induction false} TrimLeftKeepsQuotes(s: string)
    requires Without(TrimLeft(s), '"')
    ensures Without(s, '"')
  {
    if s != "" && IsSpace(s[0]) {
      TrimLeftKeepsQuotes(s[1..]);
    }
  }

  lemma {:induction false} TrimRightKeepsQuotes(s: string)
    requires Without(TrimRight(s), '"')
    ensures Without(s, '"')
  {
    if s != "" && IsSpace(s[|s| - 1]) {
      TrimRightKeepsQuotes(s[..|s| - 1]);
    }
  }

  lemma TrimKeepsQuotes(s: string)
    requires Without(LowerAscii(Trim(s)), '"')
    ensures Without(s, '"')
  {
    assert Without(Trim(s), '"') by {
      forall i | 0 <= i < |Trim(s)| ensures Trim(s)[i] != '"' {
        assert LowerAscii(Trim(s))[i] != '"';
      }
    }
    TrimRightKeepsQuotes(TrimLeft(s));
    TrimLeftKeepsQuotes(s);
  }

  /** The key the parser sees when g is left over before the attribute. */
  function KeySeen(g: string, k: string): string {
    LowerAscii(Trim(SkipBlanks(g + " " + k)))
  }

  lemma BlankBefore(k: string)
    requires k != "" && !IsBlank(k[0])
    ensures SkipBlanks(" " + k) == k
  {
    assert (" " + k)[1..] == k;
  }

  lemma CleanKey(k: string)
    requires GoodKey(k)
    ensures KeySeen("", k) == k
  {
    GoodKeyIsPlain(k);
    NotEmpty(k);
    hide LowerAscii, Trim, SkipBlanks, GoodKey, Without;
    BlankBefore(k);
    assert "" + " " + k == " " + k;
  }

  lemma NotEmpty(k: string)
    requires GoodKey(k)
    ensures k != ""
  {
  }

  lemma JunkKey(g: string, k: string)
    requires GoodKey(k) && !Without(g, '"')
    ensures !Without(KeySeen(g, k), '"')
  {
    GoodKeyIsPlain(k);
    NotEmpty(k);
    hide LowerAscii, Trim, SkipBlanks, GoodKey, Without;
    if Without(KeySeen(g, k), '"') {
      TrimKeepsQuotes(SkipBlanks(g + " " + k));
      SkipBlanksKeeps(g + " ", k);
      assert g + " " + k == g + (" " + k);
      WithoutConcat(g, " " + k, '"');
    }
  }

  lemma KeySeenIs(g: string, k: string)
    requires GoodKey(k) && (g == "" || Junk(g))
    ensures g == "" ==> KeySeen(g, k) == k
    ensures g != "" ==> !Without(KeySeen(g, k), '"')
  {
    hide KeySeen, GoodKey, Without;
    if g == "" {
      CleanKey(k);
    } else {
      JunkKey(g, k);
    }
  }

  lemma ReadHead(h: string, k: string, tail: string, out: map<string, string>)
    requires k != "" && SkipBlanks(h) != "" && Without(SkipBlanks(h), '=') && tail != "" && k == LowerAscii(Trim(SkipBlanks(h)))
    ensures ParseAttrs(h + (['='] + tail), out) == ParseAttrs(ValueAt(tail).1, out[k := ValueAt(tail).0])
  {
    hide LowerAscii, Trim, ValueAt, SkipBlanks, ParseAttrs;
    var s, t := h + (['='] + tail), SkipBlanks(h);
    SkipBlanksConcat(h, ['='] + tail);
    assert SkipBlanks(s) == t + ['='] + tail;
    AbsentIs(t, '=');
    IndexAfter(t, '=', tail);
    assert (t + ['='] + tail)[..|t|] == t && (t + ['='] + tail)[|t| + 1..] == tail;
    hide Index, Without;
    ParseAttrsStep(s, out);
  }

  /** One attribute is read, under whatever key the parser sees. */
  lemma ReadOne(g: string, attrs: seq<Attr>, out: map<string, string>)
    requires attrs != [] && Separable(attrs) && (g == "" || Junk(g))
    ensures KeySeen(g, attrs[0].key) != ""
    ensures ParseAttrs(g + Tail(attrs), out)
         == ParseAttrs(LeftOver(attrs[0].value) + Tail(attrs[1..]), out[KeySeen(g, attrs[0].key) := UpToQuote(attrs[0].value)])
  {
    var b, more := attrs[0], Tail(attrs[1..]);
    KeySeenIs(g, b.key);
    GoodKeyIsPlain(b.key);
    SomeKey(b.key, KeySeen(g, b.key));
    NoEqualsBefore(g, b.key);
    SkipBlanksKeeps(g + " ", b.key);
    QuotedValueEnds(b.value, more);
    TailFront(g, attrs);
    hide LowerAscii, Trim, ValueAt, Without, SkipBlanks, Junk, Separable, GoodKey, UpToQuote, LeftOver, Tail, ParseAttrs;
    ReadHead(g + " " + b.key, KeySeen(g, b.key), "\"" + b.value + "\"" + more, out);
  }

  lemma SomeKey(k: string, seen: string)
    requires GoodKey(k) && (seen == k || !Without(seen, '"'))
    ensures seen != ""
  {
  }

  lemma AbsentIs(s: string, c: char)
    requires Without(s, c)
    ensures c !in s
  {
  }

  lemma NoEqualsBefore(g: string, k: string)
    requires GoodKey(k) && (g == "" || Junk(g))
    ensures Without(g + " " + k, '=')
  {
  }

  lemma NothingReads(g: string, out: map<string, string>)
    requires g == "" || Junk(g)
    ensures ParseAttrs(g, out) == out
  {
    SkipBlanksKeepsNone(g);
    ParseAttrsStep(g, out);
  }

  lemma {:induction false} SkipBlanksKeepsNone(g: string)
    requires Without(g, '=')
    ensures Index(SkipBlanks(g), '=') == |SkipBlanks(g)|
  {
    if g != "" && IsBlank(g[0]) {
      SkipBlanksKeepsNone(g[1..]);
    }
  }

  /** What becomes of the attributes: each value up to its first quote, and a key only if
      nothing was left over before it. */
  function Read(attrs: seq<Attr>, clean: bool, out: map<string, string>): map<string, string>
    decreases |attrs|
  {
    if attrs == [] then out
    else Read(attrs[1..], Without(attrs[0].value, '"'), Put(out, clean, attrs[0].key, UpToQuote(attrs[0].value)))
  }

  /** The same values under keys without quotes. */
  predicate Agree(m: map<string, string>, n: map<string, string>) {
    && (forall k :: k in m && Without(k, '"') ==> k in n && n[k] == m[k])
    && (forall k :: k in n && Without(k, '"') ==> k in m)
  }

  lemma AgreeStep(m: map<string, string>, n: map<string, string>, seen: string, key: string, clean: bool, value: string)
    requires Agree(m, n) && if clean then seen == key else !Without(seen, '"')
    ensures Agree(m[seen := value], Put(n, clean, key, value))
  {
  }

  lemma {:induction false} ParseReads(g: string, attrs: seq<Attr>, out: map<string, string>, want: map<string, string>)
    requires (g == "" || Junk(g)) && Separable(attrs) && Agree(out, want)
    ensures Agree(ParseAttrs(g + Tail(attrs), out), Read(attrs, g == "", want))
    decreases |attrs|
  {
    if attrs == [] {
      NothingReads(g, out);
      assert g + Tail(attrs) == g;
    } else {
      var b := attrs[0];
      ReadOne(g, attrs, out);
      KeySeenIs(g, b.key);
      LeftOverIsJunk(b.value);
      AgreeStep(out, want, KeySeen(g, b.key), b.key, g == "", UpToQuote(b.value));
      hide Agree, Junk, KeySeen, LeftOver, UpToQuote, ParseAttrs, Tail, Put;
      ParseReads(LeftOver(b.value), attrs[1..], out[KeySeen(g, b.key) := UpToQuote(b.value)],
                 Put(want, g == "", b.key, UpToQuote(b.value)));
    }
  }

  // ---------------------------------------------------------------- which fields come back

  function CleanAfter(attrs: seq<Attr>, clean: bool): bool {
    if attrs == [] then clean else Without(attrs[|attrs| - 1].value, '"')
  }

  lemma {:induction false} ReadConcat(a: seq<Attr>, b: seq<Attr>, clean: bool, out: map<string, string>)
    ensures Read(a + b, clean, out) == Read(b, CleanAfter(a, clean), Read(a, clean, out))
    ensures CleanAfter(a + b, clean) == CleanAfter(b, CleanAfter(a, clean))
    decreases |a|
  {
    if a == [] {
      assert a + b == b;
    } else {
      assert (a + b)[1..] == a[1..] + b;
      ReadConcat(a[1..], b, Without(a[0].value, '"'), Put(out, clean, a[0].key, UpToQuote(a[0].value)));
    }
  }

  lemma ReadWhen(cond: bool, a: Attr, clean: bool, out: map<string, string>)
    ensures Read(When(cond, a), clean, out) == Put(out, cond && clean, a.key, UpToQuote(a.value))
    ensures CleanAfter(When(cond, a), clean) == if cond then Without(a.value, '"') else clean
  {
    assert When(cond, a) == [] || When(cond, a)[1..] == [];
  }

  /** A field as the parser would read it. */
  function Cut(field: string): string {
    UpToQuote(EscapeAttr(field))
  }

  /** The printed attribute before the number, and before the group, ends where it should. */
  predicate CleanNumber(r: Row) {
    Without(if r.logo != "" then r.logo else r.name, '"')
  }

  predicate CleanGroup(r: Row) {
    r.number > 0 || CleanNumber(r)
  }

  /** What the parser makes of the attributes of a row. */
  function Got(r: Row): map<string, string> {
    var pub := PublicTvgId(r.source, r.tvg);
    var m0 := Put(map[], pub != "", "tvg-id", Cut(pub));
    var m1 := Put(m0, Without(pub, '"'), "tvg-name", Cut(r.name));
    var m2 := Put(m1, r.logo != "" && Without(r.name, '"'), "tvg-logo", Cut(r.logo));
    var m3 := Put(m2, r.number > 0 && CleanNumber(r), "tvg-chno", NumberText(r));
    Put(m3, r.group != "" && CleanGroup(r), "group-title", Cut(r.group))
  }

  lemma PlainIsWhole(s: string)
    requires Without(s, '"')
    ensures UpToQuote(s) == s
  {
    AbsentIs(s, '"');
    assert Index(s, '"') == |s|;
  }

  lemma RowReads(r: Row)
    ensures Read(AttrsOf(r), true, map[]) == Got(r)
  {
    EscapedField(PublicTvgId(r.source, r.tvg));
    EscapedField(r.name);
    EscapedField(r.logo);
    NumberIsPlain(r);
    PlainIsWhole(NumberText(r));
    EmptyIsPlain();
    hide When, EscapeAttr, PublicTvgId, Without, Itoa, Read, CleanAfter, UpToQuote, Put, OddQuotes;
    var pub := PublicTvgId(r.source, r.tvg);
    var id, name := When(pub != "", Attr("tvg-id", EscapeAttr(pub))), Attr("tvg-name", EscapeAttr(r.name));
    var logo := When(r.logo != "", Attr("tvg-logo", EscapeAttr(r.logo)));
    var number := When(r.number > 0, Attr("tvg-chno", NumberText(r)));
    var group := When(r.group != "", Attr("group-title", EscapeAttr(r.group)));
    WhenTrue(name);
    var m0 := Put(map[], pub != "", "tvg-id", Cut(pub));
    ReadWhen(pub != "", Attr("tvg-id", EscapeAttr(pub)), true, map[]);
    ReadConcat(id, [name], true, map[]);
    ReadWhen(true, name, Without(pub, '"'), m0);
    var m1 := Put(m0, Without(pub, '"'), "tvg-name", Cut(r.name));
    ReadConcat(id + [name], logo, true, map[]);
    ReadWhen(r.logo != "", Attr("tvg-logo", EscapeAttr(r.logo)), Without(r.name, '"'), m1);
    var m2 := Put(m1, r.logo != "" && Without(r.name, '"'), "tvg-logo", Cut(r.logo));
    ReadConcat(id + [name] + logo, number, true, map[]);
    ReadWhen(r.number > 0, Attr("tvg-chno", NumberText(r)), CleanNumber(r), m2);
    var m3 := Put(m2, r.number > 0 && CleanNumber(r), "tvg-chno", NumberText(r));
    ReadConcat(id + [name] + logo + number, group, true, map[]);
    ReadWhen(r.group != "", Attr("group-title", EscapeAttr(r.group)), CleanGroup(r), m3);
  }

  lemma EmptyIsPlain()
    ensures Without("", '"')
  {
  }

  /** No field holds a double quote as well as an equals sign. */
  predicate SeparableRow(r: Row) {
    var pub := PublicTvgId(r.source, r.tvg);
    && (Without(pub, '"') || Without(pub, '=')) && (Without(r.name, '"') || Without(r.name, '='))
    && (Without(r.logo, '"') || Without(r.logo, '=')) && (Without(r.group, '"') || Without(r.group, '='))
  }

  lemma SeparableWhen(cond: bool, a: Attr)
    requires cond ==> GoodKey(a.key) && (Without(a.value, '"') || Without(a.value, '='))
    ensures Separable(When(cond, a))
  {
    hide GoodKey, Without;
  }

  lemma SeparableJoin(a: seq<Attr>, b: seq<Attr>)
    requires Separable(a) && Separable(b)
    ensures Separable(a + b)
  {
    hide GoodKey, Without;
  }

  lemma RowIsSeparable(r: Row)
    requires SeparableRow(r)
    ensures Separable(AttrsOf(r)) && GoodKeys(AttrsOf(r))
  {
    EscapedField(PublicTvgId(r.source, r.tvg));
    EscapedField(r.name);
    EscapedField(r.logo);
    EscapedField(r.group);
    NumberIsPlain(r);
    KeysAreGood();
    hide When, GoodKey, EscapeAttr, PublicTvgId, Without, Itoa, OddQuotes, Separable;
    var pub := PublicTvgId(r.source, r.tvg);
    var id, name := When(pub != "", Attr("tvg-id", EscapeAttr(pub))), Attr("tvg-name", EscapeAttr(r.name));
    var logo := When(r.logo != "", Attr("tvg-logo", EscapeAttr(r.logo)));
    var number := When(r.number > 0, Attr("tvg-chno", NumberText(r)));
    SeparableWhen(pub != "", Attr("tvg-id", EscapeAttr(pub)));
    SeparableWhen(true, name);
    WhenTrue(name);
    SeparableWhen(r.logo != "", Attr("tvg-logo", EscapeAttr(r.logo)));
    SeparableWhen(r.number > 0, Attr("tvg-chno", NumberText(r)));
    SeparableWhen(r.group != "", Attr("group-title", EscapeAttr(r.group)));
    SeparableJoin(id, [name]);
    SeparableJoin(id + [name], logo);
    SeparableJoin(id + [name] + logo, number);
    SeparableJoin(id + [name] + logo + number, When(r.group != "", Attr("group-title", EscapeAttr(r.group))));
    SeparableKeys(AttrsOf(r));
  }

  lemma SeparableKeys(attrs: seq<Attr>)
    requires Separable(attrs)
    ensures GoodKeys(attrs)
  {
    hide GoodKey, Without;
  }

  predicate Blank(field: string) {
    Trim(Sanitize(field)) == ""
  }

  /** Whether a field whose attribute is printed when it is not empty comes back: it is blank,
      or it has no quote and the attribute before it had none. */
  lemma FieldComesBack(field: string, clean: bool)
    ensures ((if field != "" && clean then Trim(Cut(field)) else "") == Trim(Sanitize(field)))
         == (Blank(field) || (clean && Without(field, '"')))
  {
    hide Trim, Without, Sanitize, UpToQuote;
    if Without(field, '"') {
      PlainCut(field);
    } else {
      QuotesShow(field);
    }
    BlankIsBlank();
  }

  lemma PlainCut(field: string)
    requires Without(field, '"')
    ensures Cut(field) == Sanitize(field)
  {
    Escaped(field);
    hide EscapeAttr, Sanitize, Without;
    PlainIsWhole(Sanitize(field));
  }

  lemma QuotesShow(field: string)
    requires !Without(field, '"')
    ensures Trim(Cut(field)) != Trim(Sanitize(field)) && !Blank(field)
  {
    SanitizingKeepsOddness(field);
    CutIsPlain(EscapeAttr(field));
    TrimWithout(Cut(field), '"');
    if Without(Trim(Sanitize(field)), '"') {
      TrimRightKeepsQuotes(TrimLeft(Sanitize(field)));
      TrimLeftKeepsQuotes(Sanitize(field));
    }
    EmptyIsPlain();
    hide Without, Sanitize, EscapeAttr, UpToQuote;
  }

  lemma CutIsPlain(v: string)
    ensures Without(UpToQuote(v), '"')
  {
  }

  /** The fields that survive the quotes. */
  predicate FieldsKept(r: Row) {
    && Without(PublicTvgId(r.source, r.tvg), '"')
    && (Blank(r.logo) || (Without(r.name, '"') && Without(r.logo, '"')))
    && (r.number > 0 ==> CleanNumber(r))
    && (Blank(r.group) || (CleanGroup(r) && Without(r.group, '"')))
  }

  lemma GotValues(r: Row)
    ensures var m := Got(r); var pub := PublicTvgId(r.source, r.tvg);
            ("tvg-id" in m <==> pub != "") && ("tvg-id" in m ==> m["tvg-id"] == Cut(pub))
    ensures var m := Got(r);
            ("tvg-logo" in m <==> r.logo != "" && Without(r.name, '"')) && ("tvg-logo" in m ==> m["tvg-logo"] == Cut(r.logo))
    ensures var m := Got(r);
            ("tvg-chno" in m <==> r.number > 0 && CleanNumber(r)) && ("tvg-chno" in m ==> m["tvg-chno"] == NumberText(r))
    ensures var m := Got(r);
            ("group-title" in m <==> r.group != "" && CleanGroup(r)) && ("group-title" in m ==> m["group-title"] == Cut(r.group))
    ensures "tvg-name" in Got(r) ==> Got(r)["tvg-name"] == Cut(r.name)
    ensures forall k :: k in Got(r) ==> Known(k)
  {
    hide PublicTvgId, Cut, NumberText, Without, CleanNumber, CleanGroup;
    assert "tvg-id"[4] == 'i' && "tvg-name"[4] == 'n' && "tvg-logo"[4] == 'l' && "tvg-chno"[4] == 'c' && "group-title"[4] == 'p';
  }

  lemma NamesHaveNoQuotes()
    ensures Without("tvg-id", '"') && Without("tvg-name", '"') && Without("tvg-logo", '"') && Without("tvg-chno", '"') && Without("group-title", '"')
    ensures Without("tvg_id", '"') && Without("group_title", '"') && Without("tvg_logo", '"') && Without("logo", '"')
    ensures Without("tvg-chnum", '"') && Without("channel-number", '"') && Without("chno", '"') && Without("tvg_name", '"')
    ensures !Known("tvg_name")
  {
    assert "tvg_name"[3] == '_' && "tvg-id"[3] == '-' && "tvg-logo"[3] == '-' && "tvg-name"[3] == '-' && "tvg-chno"[3] == '-';
  }

  /** The entry depends on keys without quotes only. */
  lemma SameEntry(m: map<string, string>, r: Row, name: string)
    requires Agree(m, Got(r))
    ensures NoAliases(m) && "tvg_name" !in m
    ensures forall k :: Known(k) ==> (k in m <==> k in Got(r)) && (k in m ==> m[k] == Got(r)[k])
  {
    GotValues(r);
    StringsDiffer();
    NamesHaveNoQuotes();
    hide Got, Without;
  }

  /** The entry made of what was read is the row's exactly when its fields are kept. */
  lemma EntryIsExact(m: map<string, string>, r: Row)
    requires Agree(m, Got(r)) && r.number <= 0x7FFF_FFFF_FFFF_FFFF
    ensures EntryFrom(m, Trim(Sanitize(r.name))) == EntryOf("", r).(url := "") <==> FieldsKept(r)
  {
    SameEntry(m, r, Trim(Sanitize(r.name)));
    GotValues(r);
    KnownKeys();
    FirstAttrs(m);
    FirstNumber(m);
    NameIsBack(m, r);
    FieldComesBack(PublicTvgId(r.source, r.tvg), true);
    PublicBlank(r);
    FieldComesBack(r.logo, Without(r.name, '"'));
    FieldComesBack(r.group, CleanGroup(r));
    NumberIsBack(r);
    hide Got, Without, Trim, Sanitize, PublicTvgId, Cut, Known, FirstAttr, NumberOf, CleanNumber, CleanGroup, NumberText, Agree, NoAliases;
  }

  lemma KnownKeys()
    ensures Known("tvg-id") && Known("tvg-name") && Known("tvg-logo") && Known("tvg-chno") && Known("group-title")
  {
  }

  /** A blank id is quote-free, so blank or kept comes to the same. */
  lemma PublicBlank(r: Row)
    ensures var pub := PublicTvgId(r.source, r.tvg); Blank(pub) ==> Without(pub, '"')
  {
    var pub := PublicTvgId(r.source, r.tvg);
    if !Without(pub, '"') {
      QuotesShow(pub);
    }
  }

  lemma NumberIsBack(r: Row)
    requires r.number <= 0x7FFF_FFFF_FFFF_FFFF
    ensures (NumberOf(if r.number > 0 && CleanNumber(r) then Trim(NumberText(r)) else "") == if r.number > 0 then r.number else 0)
         == (r.number > 0 ==> CleanNumber(r))
  {
    BlankIsBlank();
    if r.number > 0 {
      NumberComesBack(r.number);
    }
    hide NumberOf, Trim;
  }

  lemma NameIsBack(m: map<string, string>, r: Row)
    requires "tvg_name" !in m && ("tvg-name" in m ==> m["tvg-name"] == Cut(r.name))
    ensures EntryFrom(m, Trim(Sanitize(r.name))).name == Trim(Sanitize(r.name))
  {
    if Blank(r.name) {
      if !Without(r.name, '"') {
        QuotesShow(r.name);
      }
      PlainCut(r.name);
      hide Trim, Sanitize, FirstAttr;
      OnlyFirst(m, ["tvg-name", "tvg_name"]);
    }
  }

  /** The attributes hold no unquoted comma and end outside quotes: the comma after them is the
      one the parser cuts at. */
  predicate CutInPlace(r: Row) {
    QuoteState(JoinAttrs(AttrsOf(r)), false) == Some(false)
  }

  lemma EvenIsCutInPlace(r: Row)
    requires CommaFreeRow(r)
    ensures CutInPlace(r) <==> !OddQuotes(Quoted(r))
  {
    RowIsCommaFree(r);
    RowParity(r);
    JoinParity(AttrsOf(r));
    hide AttrsOf, JoinAttrs, OddQuotes, Quoted, Without, OddValues;
    CommaFree(JoinAttrs(AttrsOf(r)), false);
  }

  lemma Middle(p: string, n: string)
    ensures (p + "," + n)[|p|] == ',' && |p| < |p + "," + n|
    ensures (p + "," + n)[..|p|] == p && (p + "," + n)[0..|p|] == p && (p + "," + n)[|p| + 1..] == n
  {
  }

  lemma SeparatorCuts(j: string, n: string)
    requires QuoteState(j, false) == Some(false)
    ensures UnquotedComma("-1 " + j + "," + n, 0, false) == 3 + |j|
  {
    MinusOneState();
    hide QuoteState, UnquotedComma;
    QuoteConcat("-1 ", j, false);
    Middle("-1 " + j, n);
    CommaFound("-1 " + j + "," + n, 0, 3 + |j|, false);
  }

  lemma ParsedAt(p: string, n: string)
    requires UnquotedComma(p + "," + n, 0, false) == |p|
    ensures ParseInfo(p + "," + n) == Some(EntryFrom(ParseAttrs(AttrsPart(Trim(p)), map[]), Trim(n)))
  {
    hide UnquotedComma, ParseAttrs, AttrsPart, Trim, EntryFrom;
    Middle(p, n);
  }

  /** Then the attributes and the name are told apart. */
  lemma CutInPlaceIsParsed(r: Row, n: string)
    requires CutInPlace(r) && AttrsOf(r) != [] && GoodKeys(AttrsOf(r))
    ensures ParseInfo("-1 " + JoinAttrs(AttrsOf(r)) + "," + n) == Some(EntryFrom(ParseAttrs(JoinAttrs(AttrsOf(r)), map[]), Trim(n)))
  {
    AttrsPartIs(AttrsOf(r));
    hide AttrsOf, JoinAttrs, QuoteState, UnquotedComma, EntryFrom, ParseAttrs, AttrsPart, Trim, ParseInfo, GoodKeys;
    SeparatorCuts(JoinAttrs(AttrsOf(r)), n);
    ParsedAt("-1 " + JoinAttrs(AttrsOf(r)), n);
  }

  /** A row that is cut in place (with comma-free fields: one whose quotes are even in number)
      comes back exactly when its id, logo and group have no quotes and whatever is printed
      right after a name with some is blank. */
  lemma FieldsComeBackExactly(r: Row, n: string)
    requires CutInPlace(r) && SeparableRow(r) && r.number <= 0x7FFF_FFFF_FFFF_FFFF && Trim(n) == Trim(Sanitize(r.name))
    ensures ParseInfo("-1 " + JoinAttrs(AttrsOf(r)) + "," + n) == Some(EntryOf("", r).(url := "")) <==> FieldsKept(r)
  {
    RowIsSeparable(r);
    RowReads(r);
    assert AttrsOf(r) != [];
    CutInPlaceIsParsed(r, n);
    NothingLeftOver(AttrsOf(r));
    hide AttrsOf, JoinAttrs, CutInPlace, EntryFrom, ParseAttrs, Trim, Sanitize, FieldsKept, EntryOf, Agree, Got, Read, ParseInfo;
    EntryIsExact(ParseAttrs(JoinAttrs(AttrsOf(r)), map[]), r);
  }

  lemma {:induction false} CommaBefore(s: string, i: nat, n: nat, inQuote: bool)
    requires i <= n <= |s| && QuoteState(s[i..n], inQuote) == None
    ensures UnquotedComma(s, i, inQuote) < n
    decreases n - i
  {
    if i < n {
      assert s[i..n][1..] == s[i + 1..n] && s[i..n][0] == s[i];
      if !(s[i] == ',' && !inQuote) {
        CommaBefore(s, i + 1, n, if s[i] == '"' then !inQuote else inQuote);
      }
    }
  }

  lemma {:induction false} TrimLeftKeepsMark(x: string, y: string)
    ensures |y| < |TrimLeft(x + "," + y)|
  {
    if x != "" && IsSpace(x[0]) {
      assert (x + "," + y)[1..] == x[1..] + "," + y && (x + "," + y)[0] == x[0];
      TrimLeftKeepsMark(x[1..], y);
    } else {
      assert (x + "," + y)[0] == if x == "" then ',' else x[0];
    }
  }

  /** A name with a comma before it is longer than the name. */
  lemma LongerName(x: string, n: string)
    ensures |Trim(n)| < |Trim(x + "," + n)|
  {
    TrimCommutes(x + "," + n);
    TrimCommutes(n);
    assert (x + ",")[|x|] == ',' && !IsSpace(',');
    TrimRightAfter(x + ",", n);
    TrimLeftKeepsMark(x, TrimRight(n));
    TrimLeftIsSuffix(TrimRight(n));
  }

  /** A row whose attributes hold an unquoted comma never comes back: the cut is too early and
      the name too long. */
  lemma CutEarlyIsLost(r: Row, n: string)
    requires QuoteState(JoinAttrs(AttrsOf(r)), false) == None && Trim(n) == Trim(Sanitize(r.name))
    ensures ParseInfo("-1 " + JoinAttrs(AttrsOf(r)) + "," + n) != Some(EntryOf("", r).(url := ""))
  {
    MinusOneState();
    hide JoinAttrs, AttrsOf, Trim, Sanitize, QuoteState, ParseAttrs, AttrsPart, FirstAttr, NumberOf, PublicTvgId;
    var j := JoinAttrs(AttrsOf(r));
    var rest := "-1 " + j + "," + n;
    QuoteConcat("-1 ", j, false);
    assert rest[0..3 + |j|] == "-1 " + j;
    CommaBefore(rest, 0, 3 + |j|, false);
    var comma := UnquotedComma(rest, 0, false);
    var x := ("-1 " + j)[comma + 1..];
    assert rest[comma + 1..] == x + "," + n;
    LongerName(x, n);
  }

  lemma NothingLeftOver(attrs: seq<Attr>)
    requires attrs != [] && Separable(attrs)
    ensures Agree(ParseAttrs(JoinAttrs(attrs), map[]), Read(attrs, true, map[]))
  {
    ParseReads("", attrs, map[], map[]);
    BlankFirst(JoinAttrs(attrs), map[]);
    assert "" + Tail(attrs) == " " + JoinAttrs(attrs);
    hide Agree, Separable, ParseAttrs, JoinAttrs, Read, Junk;
  }

  // ---------------------------------------------------------------- what is left of a lost row

  lemma {:induction false} TrimRightAfter(pre: string, name: string)
    requires pre != "" && !IsSpace(pre[|pre| - 1])
    ensures TrimRight(pre + name) == pre + TrimRight(name)
  {
    hide TrimRight, IsSpace;
    if name == "" {
      assert pre + name == pre;
      TrimRightStep(pre);
      NothingTrims();
    } else {
      var n := |name| - 1;
      assert (pre + name)[..|pre| + n] == pre + name[..n];
      TrimRightStep(pre + name);
      TrimRightStep(name);
      TrimRightAfter(pre, name[..n]);
    }
  }

  lemma NothingTrims()
    ensures TrimRight("") == ""
  {
  }

  lemma InfoLineTrims(r: Row)
    ensures Trim(InfoLine(r)) == "#EXTINF:" + ("-1 " + JoinAttrs(AttrsOf(r)) + "," + TrimRight(Sanitize(r.name)))
  {
    var j, name := JoinAttrs(AttrsOf(r)), Sanitize(r.name);
    hide JoinAttrs, AttrsOf, Sanitize, TrimRight;
    var pre := "#EXTINF:-1 " + j + ",";
    assert InfoLine(r) == pre + name && (pre + name)[0] == pre[0];
    TrimRightAfter(pre, name);
    assert pre + TrimRight(name) == "#EXTINF:" + ("-1 " + j + "," + TrimRight(name));
  }

  /** The row's address stays: an entry that goes by its URL and has no other field, and a
      warning for the line before. */
  lemma LostRowIsItsUrl(p: Parse, base: string, r: Row)
    requires p.pending == None && CommaFreeRow(r) && OddQuotes(Quoted(r)) && GoodUrl(UrlLine(base, r))
    ensures Step(Step(p, DropCr(InfoLine(r))), DropCr(UrlLine(base, r)))
         == p.(warnings := p.warnings + 1,
               entries := p.entries + [Entry(Trim(UrlLine(base, r)), 0, "", "", "", Trim(UrlLine(base, r)), map[])])
  {
    var name := TrimRight(Sanitize(r.name));
    assert Without(name, ',') by {
      SanitizingKeepsOddness(r.name);
      TrimRightEnds(Sanitize(r.name));
    }
    LineIsLostExactly(r, name);
    InfoLineTrims(r);
    TrimDropCr(InfoLine(r));
    TrimDropCr(UrlLine(base, r));
    var more := "-1 " + JoinAttrs(AttrsOf(r)) + "," + name;
    IsInfo(more);
    hide JoinAttrs, AttrsOf, Sanitize, Trim, TrimRight, ParseInfo, HasTag, DropCr, InfoLine, UrlLine, OddQuotes, Without;
  }

  // ---------------------------------------------------------------- why no equals sign

  lemma {:induction false} EscapeConcat(a: string, b: string)
    ensures EscapeQuotes(a + b) == EscapeQuotes(a) + EscapeQuotes(b)
  {
    if a == "" {
      assert a + b == b;
    } else {
      assert (a + b)[1..] == a[1..] + b;
      EscapeConcat(a[1..], b);
    }
  }

  const QUOTE := "\""
  const ESCAPED := "\\\""
  const SPELLED := " tvg-logo="

  /** A name that spells an attribute, in a row with a logo. */
  const MENDED := Row(QUOTE + SPELLED + QUOTE, 0, "", "x", 0, "", "")

  lemma MendedAttrs()
    ensures AttrsOf(MENDED) == [Attr("tvg-name", ESCAPED + SPELLED + ESCAPED), Attr("tvg-logo", "x")]
  {
    MendedEscapes();
    hide EscapeAttr;
    assert AttrsOf(MENDED) == [Attr("tvg-name", EscapeAttr(MENDED.name))] + [Attr("tvg-logo", EscapeAttr("x"))];
  }

  lemma BetweenQuotes(s: string)
    requires Without(s, '"')
    ensures EscapeQuotes(QUOTE + s + QUOTE) == ESCAPED + s + ESCAPED
  {
    NothingToEscape(s);
    QuoteEscapes();
    hide EscapeQuotes, Without;
    EscapeConcat(QUOTE, s);
    EscapeConcat(QUOTE + s, QUOTE);
  }

  lemma MendedEscapes()
    ensures EscapeAttr(QUOTE + SPELLED + QUOTE) == ESCAPED + SPELLED + ESCAPED && EscapeAttr("x") == "x"
  {
    MendedSanitized();
    NothingToEscape("x");
    hide EscapeQuotes, Sanitize;
    BetweenQuotes(SPELLED);
  }

  lemma MendedSanitized()
    ensures Sanitize(QUOTE + SPELLED + QUOTE) == QUOTE + SPELLED + QUOTE && Sanitize("x") == "x"
  {
  }

  lemma QuoteEscapes()
    ensures EscapeQuotes(QUOTE) == ESCAPED
  {
    assert QUOTE[1..] == "";
  }

  lemma MendedCut(more: string)
    ensures ValueAt(QUOTE + (ESCAPED + SPELLED + ESCAPED) + QUOTE + more) == ("\\", " tvg-logo" + (['='] + (ESCAPED + QUOTE + more)))
  {
    var v := ESCAPED + SPELLED + ESCAPED;
    QuotedValueEnds(v, more);
    assert v == ['\\'] + ['"'] + (SPELLED + ESCAPED);
    IndexAfter(['\\'], '"', SPELLED + ESCAPED);
    assert v[..1] == "\\" && v[2..] == SPELLED + ESCAPED && v[1] == '"';
    assert LeftOver(v) == SPELLED + ESCAPED + QUOTE;
    assert SPELLED == " tvg-logo" + ['='];
    assert (" tvg-logo" + ['='] + ESCAPED + QUOTE) + more == " tvg-logo" + (['='] + (ESCAPED + QUOTE + more));
  }

  lemma UnquotedEnds(more: string)
    ensures ValueAt(ESCAPED + QUOTE + (" " + more)) == (ESCAPED + QUOTE, " " + more)
  {
    var v, s := ESCAPED + QUOTE, ESCAPED + QUOTE + (" " + more);
    assert v == "\\\"\"" && |v| == 3 && s[0] == '\\' && s[1] == '"' && s[2] == '"' && s[3] == ' ';
    assert BlankAt(s) == 3;
    assert s[..3] == v && s[3..] == " " + more;
  }

  lemma HeadSeen(k: string)
    requires GoodKey(k)
    ensures var h := " " + k; SkipBlanks(h) != "" && Without(SkipBlanks(h), '=') && LowerAscii(Trim(SkipBlanks(h))) == k
  {
    GoodKeyIsPlain(k);
    BlankBefore(k);
  }

  lemma FirstRead(name: Attr, rest: seq<Attr>)
    requires GoodKey(name.key)
    ensures var value := ValueAt("\"" + name.value + "\"" + Tail(rest));
            ParseAttrs(JoinAttrs([name] + rest), map[]) == ParseAttrs(value.1, map[name.key := value.0])
  {
    var attrs := [name] + rest;
    assert attrs[0] == name && attrs[1..] == rest;
    TailFront("", attrs);
    HeadSeen(name.key);
    NotEmptyKey(name.key);
    BlankFirst(JoinAttrs(attrs), map[]);
    assert Tail(attrs) == " " + JoinAttrs(attrs);
    hide ParseAttrs, Trim, LowerAscii, ValueAt, SkipBlanks, JoinAttrs, GoodKey, Tail, Without;
    assert "" + Tail(attrs) == Tail(attrs) && "" + " " + name.key == " " + name.key;
    ReadHead(" " + name.key, name.key, "\"" + name.value + "\"" + Tail(rest), map[]);
  }

  lemma NotEmptyKey(k: string)
    requires GoodKey(k)
    ensures k != ""
  {
  }

  lemma SecondRead(more: string, out: map<string, string>)
    ensures ParseAttrs(" tvg-logo" + (['='] + (ESCAPED + QUOTE + (" " + more))), out)
         == ParseAttrs(" " + more, out["tvg-logo" := ESCAPED + QUOTE])
  {
    KeysAreGood();
    HeadSeen("tvg-logo");
    UnquotedEnds(more);
    assert " " + "tvg-logo" == " tvg-logo" && "tvg-logo" != "";
    hide ParseAttrs, Trim, LowerAscii, ValueAt, SkipBlanks, GoodKey, Without;
    ReadHead(" tvg-logo", "tvg-logo", ESCAPED + QUOTE + (" " + more), out);
  }

  lemma LastRead(a: Attr, out: map<string, string>)
    requires GoodKey(a.key) && Without(a.value, '"')
    ensures ParseAttrs(" " + JoinAttrs([a]), out) == out[a.key := a.value]
  {
    ParseOne(a, "", out);
    BlankFirst(JoinAttrs([a]), out);
    NothingToParse(out[a.key := a.value]);
    assert AttrText(a) + "" == AttrText(a);
  }

  /** The parser reads the name's own attribute, and that makes it see the logo again. */
  lemma MendedIsRead()
    ensures ParseAttrs(JoinAttrs(AttrsOf(MENDED)), map[])
         == map["tvg-name" := "\\"]["tvg-logo" := ESCAPED + QUOTE]["tvg-logo" := "x"]
  {
    var name, logo := Attr("tvg-name", ESCAPED + SPELLED + ESCAPED), Attr("tvg-logo", "x");
    MendedAttrs();
    KeysAreGood();
    assert Tail([logo]) == " " + JoinAttrs([logo]) && Without("x", '"');
    hide ParseAttrs, ValueAt, AttrText, JoinAttrs, GoodKey, Tail, AttrsOf, Without;
    assert [name] + [logo] == [name, logo];
    FirstRead(name, [logo]);
    MendedCut(Tail([logo]));
    SecondRead(JoinAttrs([logo]), map["tvg-name" := "\\"]);
    LastRead(logo, map["tvg-name" := "\\"]["tvg-logo" := ESCAPED + QUOTE]);
  }

  /** With an equals sign the fields can come back all the same: here the logo does, though
      it follows a name with quotes. */
  lemma EqualsSignCanMend()
    ensures CommaFreeRow(MENDED) && !OddQuotes(Quoted(MENDED)) && !FieldsKept(MENDED)
    ensures ParseInfo("-1 " + JoinAttrs(AttrsOf(MENDED)) + "," + MENDED.name) == Some(EntryOf("", MENDED).(url := ""))
  {
    hide *;
    MendedCommas();
    MendedParity();
    MendedIsNotKept();
    MendedGoodKeys();
    MendedIsRead();
    MendedEntry();
    EvenIsCutInPlace(MENDED);
    CutInPlaceIsParsed(MENDED, MENDED.name);
  }

  lemma MendedGoodKeys()
    ensures AttrsOf(MENDED) != [] && GoodKeys(AttrsOf(MENDED)) && Without(MENDED.name, ',')
  {
    MendedAttrs();
    KeysAreGood();
  }

  lemma MendedCommas()
    ensures CommaFreeRow(MENDED)
  {
    assert PublicTvgId(0, "") == "";
  }

  lemma PlainParts()
    ensures !OddQuotes(SPELLED) && !OddQuotes("x")
  {
    NoneIsEven(SPELLED);
    NoneIsEven("x");
  }

  lemma MendedParity()
    ensures !OddQuotes(Quoted(MENDED))
  {
    hide CommaFreeRow, Without, GoodKey;
    PlainParts();
    OneCharOdd('"');
    assert QUOTE == ['"'] && PublicTvgId(0, "") == "";
    assert Quoted(MENDED) == QUOTE + SPELLED + QUOTE + "x";
    hide OddQuotes, Quoted;
    OddConcat(QUOTE, SPELLED);
    OddConcat(QUOTE + SPELLED, QUOTE);
    OddConcat(QUOTE + SPELLED + QUOTE, "x");
  }

  lemma MendedIsNotKept()
    ensures !FieldsKept(MENDED)
  {
    assert MENDED.name[0] == '"';
    MendedSanitized();
    TrimmedIsFixed("x");
    hide Trim, Sanitize, PublicTvgId, CleanNumber, CleanGroup;
  }

  lemma MendedName()
    ensures Trim(MENDED.name) == MENDED.name && MENDED.name != "" && Sanitize(MENDED.name) == MENDED.name
    ensures Trim("x") == "x" && Sanitize("x") == "x"
  {
    MendedSanitized();
    assert MENDED.name[0] == '"' && MENDED.name[|MENDED.name| - 1] == '"';
    TrimmedIsFixed(MENDED.name);
    TrimmedIsFixed("x");
  }

  lemma MendedKeys(m: map<string, string>)
    requires m.Keys == {"tvg-name", "tvg-logo"}
    ensures NoAliases(m) && "tvg-id" !in m && "tvg-chno" !in m && "group-title" !in m
  {
    StringsDiffer();
    assert "tvg-id"[4] == 'i' && "tvg-name"[4] == 'n' && "tvg-logo"[4] == 'l' && "tvg-chno"[4] == 'c' && "group-title"[4] == 'p';
    assert Known("tvg-name") && Known("tvg-logo");
    hide Known;
  }

  lemma MendedEntry()
    ensures EntryFrom(map["tvg-name" := "\\"]["tvg-logo" := ESCAPED + QUOTE]["tvg-logo" := "x"], Trim(MENDED.name))
         == EntryOf("", MENDED).(url := "")
  {
    var m := map["tvg-name" := "\\"]["tvg-logo" := ESCAPED + QUOTE]["tvg-logo" := "x"];
    MendedName();
    BlankIsBlank();
    assert PublicTvgId(0, "") == "";
    assert m.Keys == {"tvg-name", "tvg-logo"};
    MendedKeys(m);
    hide Trim, Sanitize, FirstAttr, NumberOf, Known, PublicTvgId;
    FirstAttrs(m);
    FirstNumber(m);
  }
}
