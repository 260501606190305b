/** Parsing a printed playlist gives back one entry per row. */
module PlaylistRoundTrip {
  import opened Seqs
  import opened Text
  import opened RelayXml
  import opened M3u

  predicate Without(s: string, c: char) {
    forall i :: 0 <= i < |s| ==> s[i] != c
  }

  /** What the playlist promises for a row: no double quote, a name that is not blank, and a
      number that fits an int. */
  predicate GoodRow(r: Row) {
    && Without(r.name, '"') && Without(r.logo, '"') && Without(r.group, '"') && Without(r.tvg, '"')
    && Trim(Sanitize(r.name)) != ""
    && r.number <= 0x7FFF_FFFF_FFFF_FFFF
  }

  /** The stream URL is one line that does not look like a comment. */
  predicate GoodUrl(url: string) {
    Without(url, '\n') && Trim(url) != "" && Trim(url)[0] != '#'
  }

  function EntryOf(base: string, r: Row): Entry {
    Entry(Trim(Sanitize(r.name)), if r.number > 0 then r.number else 0, Trim(Sanitize(PublicTvgId(r.source, r.tvg))),
          Trim(Sanitize(r.group)), Trim(Sanitize(r.logo)), Trim(UrlLine(base, r)), map[])
  }

  function EntriesOf(base: string, rows: seq<Row>): seq<Entry> {
    if rows == [] then [] else EntriesOf(base, rows[..|rows| - 1]) + [EntryOf(base, rows[|rows| - 1])]
  }

  // ---------------------------------------------------------------- lines

  lemma {:induction false} UnlinesFront(a: string, rest: seq<string>)
    ensures Unlines([a] + rest) == a + "\n" + Unlines(rest)
  {
    var all := [a] + rest;
    if rest == [] {
      assert all[..0] == [];
    } else {
      var n := |rest| - 1;
      UnlinesFront(a, rest[..n]);
      assert all[..n + 1] == [a] + rest[..n];
    }
  }

  lemma {:induction false} LinesComeBack(lines: seq<string>)
    requires forall i :: 0 <= i < |lines| ==> Without(lines[i], '\n')
    ensures |ScanLines(Unlines(lines))| == |lines|
    ensures forall i :: 0 <= i < |lines| ==> ScanLines(Unlines(lines))[i] == DropCr(lines[i])
  {
    hide Without, ScanLines, DropCr, Unlines;
    if lines == [] {
      NoLines();
    } else {
      var a, rest := lines[0], lines[1..];
      LinesComeBack(rest);
      UnlinesFront(a, rest);
      assert lines == [a] + rest;
      FirstLine(a, Unlines(rest));
    }
  }

  lemma NoLines()
    ensures ScanLines(Unlines([])) == []
  {
  }

  lemma FirstLine(a: string, text: string)
    requires Without(a, '\n')
    ensures ScanLines(a + "\n" + text) == [DropCr(a)] + ScanLines(text)
  {
    hide DropCr;
    var all := a + ['\n'] + text;
    IndexAfter(a, '\n', text);
    assert all[..|a|] == a && all[|a| + 1..] == text;
  }

  /** A carriage return before the line feed is trimmed anyway. */
  lemma TrimDropCr(s: string)
    ensures Trim(DropCr(s)) == Trim(s)
  {
    TrimCommutes(s);
    TrimCommutes(DropCr(s));
  }

  // ---------------------------------------------------------------- quotes and commas

  /** Whether s leaves the scanner inside quotes; none if it meets an unquoted comma. */
  function QuoteState(s: string, inQuote: bool): Option<bool> {
    if s == "" then Some(inQuote)
    else if s[0] == '"' then QuoteState(s[1..], !inQuote)
    else if s[0] == ',' && !inQuote then None
    else QuoteState(s[1..], inQuote)
  }

  lemma {:induction false} QuoteConcat(a: string, b: string, inQuote: bool)
    requires QuoteState(a, inQuote).Some?
    ensures QuoteState(a + b, inQuote) == QuoteState(b, QuoteState(a, inQuote).value)
  {
    if a == "" {
      assert a + b == b;
    } else {
      assert (a + b)[1..] == a[1..] + b;
      QuoteConcat(a[1..], b, if a[0] == '"' then !inQuote else inQuote);
    }
  }

  lemma {:induction false} QuotedStays(s: string)
    requires Without(s, '"')
    ensures QuoteState(s, true) == Some(true)
  {
    if s != "" {
      QuotedStays(s[1..]);
    }
  }

  lemma {:induction false} CommaFound(s: string, i: nat, n: nat, inQuote: bool)
    requires i <= n < |s| && s[n] == ',' && QuoteState(s[i..n], inQuote) == Some(false)
    ensures UnquotedComma(s, i, inQuote) == n
    decreases n - i
  {
    if i == n {
      assert s[i..n] == "";
    } else {
      assert s[i..n][1..] == s[i + 1..n] && s[i..n][0] == s[i];
      CommaFound(s, i + 1, n, if s[i] == '"' then !inQuote else inQuote);
    }
  }

  // ---------------------------------------------------------------- attributes

  /** The keys the printer uses: short lower-case words with dashes. */
  predicate GoodKey(k: string) {
    k != "" && forall i :: 0 <= i < |k| ==> 'a' <= k[i] <= 'z' || k[i] == '-'
  }

  predicate GoodKeys(attrs: seq<Attr>) {
    forall i :: 0 <= i < |attrs| ==> GoodKey(attrs[i].key)
  }

  predicate GoodAttrs(attrs: seq<Attr>) {
    forall i :: 0 <= i < |attrs| ==> GoodKey(attrs[i].key) && Without(attrs[i].value, '"')
  }

  lemma {:induction false} KeyState(k: string)
    requires forall i :: 0 <= i < |k| ==> 'a' <= k[i] <= 'z' || k[i] == '-'
    ensures QuoteState(k, false) == Some(false)
  {
    if k != "" {
      KeyState(k[1..]);
    }
  }

  lemma AttrState(a: Attr)
    requires GoodKey(a.key) && Without(a.value, '"')
    ensures QuoteState(AttrText(a), false) == Some(false)
  {
    KeyState(a.key);
    QuotedStays(a.value);
    assert "=\""[1..] == "\"" && "\""[1..] == "";
    assert QuoteState("=\"", false) == Some(true) && QuoteState("\"", true) == Some(false);
    QuoteConcat(a.key, "=\"", false);
    QuoteConcat(a.key + "=\"", a.value, false);
    QuoteConcat(a.key + "=\"" + a.value, "\"", false);
  }

  lemma {:induction false} JoinState(attrs: seq<Attr>)
    requires GoodAttrs(attrs)
    ensures QuoteState(JoinAttrs(attrs), false) == Some(false)
  {
    if attrs != [] {
      AttrState(attrs[0]);
      if |attrs| > 1 {
        JoinState(attrs[1..]);
        assert " "[1..] == "";
        QuoteConcat(AttrText(attrs[0]), " ", false);
        QuoteConcat(AttrText(attrs[0]) + " ", JoinAttrs(attrs[1..]), false);
      }
    }
  }

  function Updated(out: map<string, string>, attrs: seq<Attr>): map<string, string>
    decreases |attrs|
  {
    if attrs == [] then out else Updated(out[attrs[0].key := attrs[0].value], attrs[1..])
  }

  lemma GoodKeyIsPlain(k: string)
    requires GoodKey(k)
    ensures LowerAscii(Trim(k)) == k && Without(k, '=') && !IsBlank(k[0])
  {
    TrimmedIsFixed(k);
  }

  lemma QuotedValue(value: string, more: string)
    requires Without(value, '"')
    ensures ValueAt("\"" + value + "\"" + more) == (value, more)
  {
    var tail := "\"" + value + "\"" + more;
    assert tail[1..] == value + ['"'] + more;
    IndexAfter(value, '"', more);
    assert tail[1..][..|value|] == value && tail[1..][|value| + 1..] == more;
  }

  /** One attribute and what comes after it. */
  lemma ParseOne(a: Attr, more: string, out: map<string, string>)
    requires GoodKey(a.key) && Without(a.value, '"')
    ensures ParseAttrs(AttrText(a) + more, out) == ParseAttrs(more, out[a.key := a.value])
  {
    hide LowerAscii, Trim, ValueAt, Without, Index;
    var s := AttrText(a) + more;
    var tail := "\"" + a.value + "\"" + more;
    GoodKeyIsPlain(a.key);
    QuotedValue(a.value, more);
    assert s == a.key + ['='] + tail;
    KeyEnds(a.key, tail);
    assert s[..|a.key|] == a.key && s[|a.key| + 1..] == tail;
  }

  lemma KeyEnds(k: string, tail: string)
    requires GoodKey(k)
    ensures Index(k + ['='] + tail, '=') == |k| && SkipBlanks(k + ['='] + tail) == k + ['='] + tail
  {
    GoodKeyIsPlain(k);
    IndexAfter(k, '=', tail);
    assert (k + ['='] + tail)[0] == k[0];
  }

  lemma {:induction false} ParseJoined(attrs: seq<Attr>, out: map<string, string>)
    requires GoodAttrs(attrs)
    ensures ParseAttrs(JoinAttrs(attrs), out) == Updated(out, attrs)
  {
    if attrs != [] {
      var out' := out[attrs[0].key := attrs[0].value];
      ParseJoined(attrs[1..], out');
      if |attrs| == 1 {
        ParseOne(attrs[0], "", out);
        assert AttrText(attrs[0]) + "" == AttrText(attrs[0]);
        assert attrs[1..] == [];
      } else {
        var more := JoinAttrs(attrs[1..]);
        ParseOne(attrs[0], " " + more, out);
        assert AttrText(attrs[0]) + " " + more == AttrText(attrs[0]) + (" " + more);
        BlankFirst(more, out');
      }
    }
  }

  lemma BlankFirst(s: string, out: map<string, string>)
    ensures ParseAttrs(" " + s, out) == ParseAttrs(s, out)
  {
    assert (" " + s)[1..] == s;
    assert SkipBlanks(" " + s) == SkipBlanks(s);
    hide ParseAttrs, SkipBlanks, Index, ValueAt, LowerAscii, Trim;
    ParseAttrsStep(" " + s, out);
    ParseAttrsStep(s, out);
  }

  // ---------------------------------------------------------------- one row

  lemma {:induction false} NothingToEscape(s: string)
    requires Without(s, '"')
    ensures EscapeQuotes(s) == s
  {
    if s != "" {
      NothingToEscape(s[1..]);
      assert s == [s[0]] + s[1..];
    }
  }

  lemma Escaped(s: string)
    requires Without(s, '"')
    ensures EscapeAttr(s) == Sanitize(s) && Without(Sanitize(s), '"')
    ensures Without(Sanitize(s), '\n') && |Sanitize(s)| == |s|
  {
    NothingToEscape(Sanitize(s));
  }

  lemma DigitsAreGood(s: string)
    requires Digits(s)
    ensures Without(s, '"') && Without(s, '\n') && Trimmed(s)
  {
  }

  lemma PublicIdIsGood(r: Row)
    requires Without(r.tvg, '"')
    ensures Without(PublicTvgId(r.source, r.tvg), '"')
  {
    if r.source > 0 {
      DigitsAreGood(Itoa(r.source));
    }
    TrimWithout(r.tvg, '"');
  }

  lemma {:induction false} TrimLeftIsSuffix(s: string)
    ensures |TrimLeft(s)| <= |s| && TrimLeft(s) == s[|s| - |TrimLeft(s)|..]
  {
    if s != "" && IsSpace(s[0]) {
      TrimLeftIsSuffix(s[1..]);
      assert TrimLeft(s[1..]) == s[|s| - |TrimLeft(s[1..])|..];
    }
  }

  lemma TrimWithout(s: string, c: char)
    requires Without(s, c)
    ensures Without(Trim(s), c)
  {
    TrimLeftIsSuffix(s);
    TrimRightEnds(TrimLeft(s));
  }

  /** The five attributes as the printer writes them. */
  predicate Plain(r: Row) {
    && GoodAttrs(AttrsOf(r))
    && EscapeAttr(r.name) == Sanitize(r.name) && EscapeAttr(r.logo) == Sanitize(r.logo)
    && EscapeAttr(r.group) == Sanitize(r.group)
    && EscapeAttr(PublicTvgId(r.source, r.tvg)) == Sanitize(PublicTvgId(r.source, r.tvg))
  }

  lemma GoodWhen(cond: bool, a: Attr)
    requires cond ==> GoodKey(a.key) && Without(a.value, '"')
    ensures GoodAttrs(When(cond, a))
  {
    hide GoodKey, Without;
  }

  lemma GoodJoin(a: seq<Attr>, b: seq<Attr>)
    requires GoodAttrs(a) && GoodAttrs(b)
    ensures GoodAttrs(a + b)
  {
    hide GoodKey, Without;
  }

  lemma NumberIsGood(r: Row)
    ensures GoodAttrs(When(r.number > 0, Attr("tvg-chno", if r.number > 0 then Itoa(r.number) else "")))
  {
    hide GoodAttrs, When, GoodKey;
    KeysAreGood();
    if r.number > 0 {
      DigitsAreGood(Itoa(r.number));
    }
    GoodWhen(r.number > 0, Attr("tvg-chno", if r.number > 0 then Itoa(r.number) else ""));
  }

  lemma AttrsAreGood(r: Row)
    requires Without(EscapeAttr(r.name), '"') && Without(EscapeAttr(r.logo), '"') && Without(EscapeAttr(r.group), '"')
    requires Without(EscapeAttr(PublicTvgId(r.source, r.tvg)), '"')
    ensures GoodAttrs(AttrsOf(r))
  {
    hide GoodAttrs, When, GoodKey, EscapeAttr, PublicTvgId, Without, Itoa;
    KeysAreGood();
    var id, name := Attr("tvg-id", EscapeAttr(PublicTvgId(r.source, r.tvg))), Attr("tvg-name", EscapeAttr(r.name));
    var logo, group := Attr("tvg-logo", EscapeAttr(r.logo)), Attr("group-title", EscapeAttr(r.group));
    GoodWhen(PublicTvgId(r.source, r.tvg) != "", id);
    GoodWhen(true, name);
    WhenTrue(name);
    GoodWhen(r.logo != "", logo);
    GoodWhen(r.group != "", group);
    NumberIsGood(r);
    var a := When(PublicTvgId(r.source, r.tvg) != "", id) + [name];
    GoodJoin(When(PublicTvgId(r.source, r.tvg) != "", id), [name]);
    var b := a + When(r.logo != "", logo);
    GoodJoin(a, When(r.logo != "", logo));
    var number := When(r.number > 0, Attr("tvg-chno", if r.number > 0 then Itoa(r.number) else ""));
    GoodJoin(b, number);
    GoodJoin(b + number, When(r.group != "", group));
  }

  lemma WhenTrue(a: Attr)
    ensures When(true, a) == [a]
  {
  }

  lemma RowIsPlain(r: Row)
    requires GoodRow(r)
    ensures Plain(r)
  {
    hide PublicTvgId, EscapeAttr, Sanitize, Without, GoodAttrs, AttrsOf, Trim;
    PublicIdIsGood(r);
    Escaped(r.name);
    Escaped(r.logo);
    Escaped(r.group);
    Escaped(PublicTvgId(r.source, r.tvg));
    AttrsAreGood(r);
  }

  lemma KeysAreGood()
    ensures GoodKey("tvg-id") && GoodKey("tvg-name") && GoodKey("tvg-logo") && GoodKey("tvg-chno") && GoodKey("group-title")
  {
  }

  lemma {:induction false} UpdatedConcat(out: map<string, string>, a: seq<Attr>, b: seq<Attr>)
    ensures Updated(out, a + b) == Updated(Updated(out, a), b)
    decreases |a|
  {
    if a == [] {
      assert a + b == b;
    } else {
      assert (a + b)[1..] == a[1..] + b;
      UpdatedConcat(out[a[0].key := a[0].value], a[1..], b);
    }
  }

  function Put(out: map<string, string>, cond: bool, key: string, value: string): map<string, string> {
    if cond then out[key := value] else out
  }

  lemma UpdatedWhen(out: map<string, string>, cond: bool, a: Attr)
    ensures Updated(out, When(cond, a)) == Put(out, cond, a.key, a.value)
  {
    assert When(cond, a) == [] || When(cond, a)[1..] == [];
  }

  /** The attribute map of a row, key by key. */
  function Attrs(r: Row): map<string, string> {
    var pub := PublicTvgId(r.source, r.tvg);
    var m0 := Put(map[], pub != "", "tvg-id", EscapeAttr(pub));
    var m1 := Put(m0, true, "tvg-name", EscapeAttr(r.name));
    var m2 := Put(m1, r.logo != "", "tvg-logo", EscapeAttr(r.logo));
    var m3 := Put(m2, r.number > 0, "tvg-chno", if r.number > 0 then Itoa(r.number) else "");
    Put(m3, r.group != "", "group-title", EscapeAttr(r.group))
  }

  lemma AttrsAreUpdated(r: Row)
    ensures Updated(map[], AttrsOf(r)) == Attrs(r)
  {
    var pub := PublicTvgId(r.source, r.tvg);
    var a := Attr("tvg-id", EscapeAttr(pub));
    var b := Attr("tvg-name", EscapeAttr(r.name));
    var c := Attr("tvg-logo", EscapeAttr(r.logo));
    var d := Attr("tvg-chno", if r.number > 0 then Itoa(r.number) else "");
    var e := Attr("group-title", EscapeAttr(r.group));
    hide Updated, When, PublicTvgId, EscapeAttr, Put;
    UpdatedWhen(map[], pub != "", a);
    var s0 := When(pub != "", a);
    UpdatedConcat(map[], s0, [b]);
    One(b);
    UpdatedWhen(Updated(map[], s0), true, b);
    UpdatedConcat(map[], s0 + [b], When(r.logo != "", c));
    UpdatedWhen(Updated(map[], s0 + [b]), r.logo != "", c);
    var s2 := s0 + [b] + When(r.logo != "", c);
    UpdatedConcat(map[], s2, When(r.number > 0, d));
    UpdatedWhen(Updated(map[], s2), r.number > 0, d);
    UpdatedConcat(map[], s2 + When(r.number > 0, d), When(r.group != "", e));
    UpdatedWhen(Updated(map[], s2 + When(r.number > 0, d)), r.group != "", e);
    NothingUpdated();
  }

  lemma One(a: Attr)
    ensures When(true, a) == [a]
  {
  }

  lemma NothingUpdated()
    ensures Updated(map[], []) == map[]
  {
  }

  lemma {:induction false} NoneFirst(m: map<string, string>, keys: seq<string>)
    requires forall i :: 0 <= i < |keys| ==> keys[i] !in m
    ensures FirstAttr(m, keys) == ""
  {
    if keys != [] {
      NoneFirst(m, keys[1..]);
    }
  }

  /** With only the first key present, its trimmed value. */
  lemma OnlyFirst(m: map<string, string>, keys: seq<string>)
    requires keys != [] && forall i :: 1 <= i < |keys| ==> keys[i] !in m
    ensures FirstAttr(m, keys) == if keys[0] in m then Trim(m[keys[0]]) else ""
  {
    NoneFirst(m, keys[1..]);
  }

  predicate Known(k: string) {
    k == "tvg-id" || k == "tvg-name" || k == "tvg-logo" || k == "tvg-chno" || k == "group-title"
  }

  lemma AttrsKnown(r: Row)
    ensures forall k :: k in Attrs(r) ==> Known(k)
  {
    hide PublicTvgId, EscapeAttr;
  }

  lemma StringsDiffer()
    ensures !Known("tvg_id") && !Known("group_title") && !Known("tvg_logo") && !Known("logo") && !Known("tvg-chnum")
            && !Known("channel-number") && !Known("chno")
  {
    assert "tvg_id"[3] == '_' && "tvg_logo"[3] == '_' && "group_title"[5] == '_';
    assert "tvg-id"[3] == '-' && "tvg-logo"[3] == '-' && "tvg-name"[3] == '-' && "tvg-chno"[3] == '-' && "group-title"[5] == '-';
    assert |"tvg-chnum"| == 9 && |"channel-number"| == 14 && |"chno"| == 4 && |"logo"| == 4;
  }

  lemma AttrValue(r: Row)
    ensures var m := Attrs(r); var pub := PublicTvgId(r.source, r.tvg);
            ("tvg-id" in m <==> pub != "") && ("tvg-id" in m ==> m["tvg-id"] == EscapeAttr(pub))
    ensures var m := Attrs(r);
            ("tvg-logo" in m <==> r.logo != "") && ("tvg-logo" in m ==> m["tvg-logo"] == EscapeAttr(r.logo))
    ensures var m := Attrs(r);
            ("tvg-chno" in m <==> r.number > 0) && ("tvg-chno" in m && r.number > 0 ==> m["tvg-chno"] == Itoa(r.number))
    ensures var m := Attrs(r);
            ("group-title" in m <==> r.group != "") && ("group-title" in m ==> m["group-title"] == EscapeAttr(r.group))
  {
    hide PublicTvgId, EscapeAttr;
    assert "tvg-id"[4] == 'i' && "tvg-name"[4] == 'n' && "tvg-logo"[4] == 'l' && "tvg-chno"[4] == 'c' && "group-title"[4] == 'p';
  }

  lemma NumberComesBack(n: nat)
    requires n <= 0x7FFF_FFFF_FFFF_FFFF
    ensures NumberOf(Trim(Itoa(n))) == n
  {
    DigitsAreGood(Itoa(n));
    TrimmedIsFixed(Itoa(n));
    ValueOfItoa(n);
  }

  /** What parseEXTINF makes of a row's attributes. */
  lemma FieldsComeBack(r: Row)
    requires GoodRow(r)
    ensures var m := Attrs(r);
            FirstAttr(m, ["tvg-id", "tvg_id"]) == Trim(Sanitize(PublicTvgId(r.source, r.tvg)))
            && FirstAttr(m, ["group-title", "group_title"]) == Trim(Sanitize(r.group))
            && FirstAttr(m, ["tvg-logo", "tvg_logo", "logo"]) == Trim(Sanitize(r.logo))
            && NumberOf(FirstAttr(m, ["tvg-chno", "tvg-chnum", "channel-number", "chno"])) == if r.number > 0 then r.number else 0
  {
    RowIsPlain(r);
    AttrValue(r);
    AttrsKnown(r);
    BlankIsBlank();
    if r.number > 0 {
      NumberComesBack(r.number);
    }
    StringsDiffer();
    hide Attrs, PublicTvgId, EscapeAttr, Trim, Sanitize, Known, NumberOf, GoodAttrs, FirstAttr;
    var m := Attrs(r);
    assert NoAliases(m);
    FirstAttrs(m);
    FirstNumber(m);
  }

  /** None of the other names the parser accepts for an attribute is a key. */
  predicate NoAliases(m: map<string, string>) {
    && "tvg_id" !in m && "group_title" !in m && "tvg_logo" !in m && "logo" !in m
    && "tvg-chnum" !in m && "channel-number" !in m && "chno" !in m
  }

  lemma FirstAttrs(m: map<string, string>)
    requires NoAliases(m)
    ensures FirstAttr(m, ["tvg-id", "tvg_id"]) == if "tvg-id" in m then Trim(m["tvg-id"]) else ""
    ensures FirstAttr(m, ["group-title", "group_title"]) == if "group-title" in m then Trim(m["group-title"]) else ""
    ensures FirstAttr(m, ["tvg-logo", "tvg_logo", "logo"]) == if "tvg-logo" in m then Trim(m["tvg-logo"]) else ""
  {
    hide FirstAttr, Trim;
    OnlyFirst(m, ["tvg-id", "tvg_id"]);
    OnlyFirst(m, ["group-title", "group_title"]);
    OnlyFirst(m, ["tvg-logo", "tvg_logo", "logo"]);
  }

  lemma FirstNumber(m: map<string, string>)
    requires NoAliases(m)
    ensures FirstAttr(m, ["tvg-chno", "tvg-chnum", "channel-number", "chno"]) == if "tvg-chno" in m then Trim(m["tvg-chno"]) else ""
  {
    hide FirstAttr, Trim;
    OnlyFirst(m, ["tvg-chno", "tvg-chnum", "channel-number", "chno"]);
  }

  lemma BlankIsBlank()
    ensures Trim(Sanitize("")) == "" && NumberOf("") == 0
  {
  }

  // ---------------------------------------------------------------- one line

  /** The attribute text starts with a key and ends with a quote, so trimming leaves it. */
  lemma {:induction false} JoinEnds(attrs: seq<Attr>)
    requires attrs != [] && GoodKeys(attrs)
    ensures var j := JoinAttrs(attrs); j != "" && j[0] == attrs[0].key[0] && j[|j| - 1] == '"'
  {
    if |attrs| > 1 {
      JoinEnds(attrs[1..]);
    }
  }

  lemma JoinIsTrimmed(attrs: seq<Attr>)
    requires attrs != [] && GoodKeys(attrs)
    ensures Trim(JoinAttrs(attrs)) == JoinAttrs(attrs)
    ensures Trim("-1 " + JoinAttrs(attrs)) == "-1 " + JoinAttrs(attrs)
    ensures BlankAt("-1 " + JoinAttrs(attrs)) == 2
  {
    var j := JoinAttrs(attrs);
    JoinEnds(attrs);
    assert Trimmed(j) by {
      KeyStarts(attrs[0].key);
    }
    hide JoinAttrs, GoodKeys, Trim, BlankAt;
    TrimmedIsFixed(j);
    TrimmedIsFixed("-1 " + j);
    DurationToken(j);
  }

  lemma KeyStarts(k: string)
    requires GoodKey(k)
    ensures !IsSpace(k[0])
  {
  }

  lemma DurationToken(more: string)
    ensures BlankAt("-1 " + more) == 2
  {
    var meta := "-1 " + more;
    assert meta[0] == '-' && meta[1] == '1' && meta[2] == ' ';
  }

  lemma InfoComma(attrs: seq<Attr>, name: string)
    requires GoodAttrs(attrs)
    ensures UnquotedComma("-1 " + JoinAttrs(attrs) + "," + name, 0, false) == 3 + |JoinAttrs(attrs)|
  {
    var j := JoinAttrs(attrs);
    var rest := "-1 " + j + "," + name;
    JoinState(attrs);
    MinusOneState();
    QuoteConcat("-1 ", j, false);
    assert rest[0..3 + |j|] == "-1 " + j;
    CommaFound(rest, 0, 3 + |j|, false);
  }

  lemma MinusOneState()
    ensures QuoteState("-1 ", false) == Some(false)
  {
    assert "-1 "[1..] == "1 " && "1 "[1..] == " " && " "[1..] == "";
  }

  lemma AttrsPartIs(attrs: seq<Attr>)
    requires attrs != [] && GoodKeys(attrs)
    ensures AttrsPart(Trim("-1 " + JoinAttrs(attrs))) == JoinAttrs(attrs)
  {
    JoinIsTrimmed(attrs);
    hide Trim, JoinAttrs, BlankAt, GoodKeys;
    var meta := "-1 " + JoinAttrs(attrs);
    assert meta[3..] == JoinAttrs(attrs);
  }

  lemma InfoSplits(attrs: seq<Attr>, n: string)
    requires attrs != [] && GoodAttrs(attrs)
    ensures ParseInfo("-1 " + JoinAttrs(attrs) + "," + n) == Some(EntryFrom(Updated(map[], attrs), Trim(n)))
  {
    InfoComma(attrs, n);
    AttrsPartIs(attrs);
    ParseJoined(attrs, map[]);
    hide Trim, JoinAttrs, GoodAttrs, UnquotedComma, ParseAttrs, EntryFrom, AttrsPart, Updated;
    var j := JoinAttrs(attrs);
    var rest := "-1 " + j + "," + n;
    assert rest[..3 + |j|] == "-1 " + j && rest[3 + |j| + 1..] == n;
  }

  /** parseEXTINF of a printed line whose name part is n. */
  lemma InfoComesBack(r: Row, n: string)
    requires GoodRow(r) && Trim(n) == Trim(Sanitize(r.name))
    ensures ParseInfo("-1 " + JoinAttrs(AttrsOf(r)) + "," + n) == Some(EntryOf("", r).(url := ""))
  {
    RowIsPlain(r);
    FieldsComeBack(r);
    AttrsAreUpdated(r);
    NameGood(r);
    assert AttrsOf(r) != [];
    InfoSplits(AttrsOf(r), n);
    hide AttrsOf, Trim, Sanitize, PublicTvgId, GoodAttrs, Attrs, EscapeAttr, JoinAttrs, ParseInfo, FirstAttr, NumberOf, Updated, GoodRow;
  }

  lemma NameGood(r: Row)
    requires GoodRow(r)
    ensures Trim(Sanitize(r.name)) != ""
  {
  }

  // ---------------------------------------------------------------- the whole playlist

  lemma TrimInfo(pre: string, name: string)
    requires pre != "" && !IsSpace(pre[0]) && Trim(name) != ""
    ensures Trim(pre + name) == pre + TrimRight(name) && Trim(TrimRight(name)) == Trim(name)
  {
    TrimOfTrimRight(name);
    TrimRightConcat(pre, name);
    assert (pre + name)[0] == pre[0];
  }

  lemma IsInfo(more: string)
    ensures var line := "#EXTINF:" + more;
            HasTag(line, EXTINF) && !HasTag(line, EXTM3U) && line[0] == '#' && line[8..] == more
  {
    var line := "#EXTINF:" + more;
    assert line[4] == 'I' && EXTM3U[4] == 'M';
  }

  /** The info line of a row leaves its entry pending. */
  lemma InfoStep(p: Parse, r: Row)
    requires GoodRow(r) && p.pending == None
    ensures Step(p, DropCr(InfoLine(r))) == p.(pending := Some(EntryOf("", r).(url := "")))
  {
    var j, name := JoinAttrs(AttrsOf(r)), Sanitize(r.name);
    hide JoinAttrs, AttrsOf, Sanitize, Trim, GoodRow, ParseInfo, EntryOf, HasTag;
    NameGood(r);
    TrimDropCr(InfoLine(r));
    var pre := "#EXTINF:-1 " + j + ",";
    assert InfoLine(r) == pre + name;
    assert !IsSpace(pre[0]);
    TrimInfo(pre, name);
    var n := TrimRight(name);
    InfoComesBack(r, n);
    var more := "-1 " + j + "," + n;
    assert pre + n == "#EXTINF:" + more;
    IsInfo(more);
  }

  lemma UrlStep(p: Parse, e: Entry, url: string)
    requires p.pending == Some(e) && e.name != "" && GoodUrl(url)
    ensures Step(p, DropCr(url)) == p.(entries := p.entries + [e.(url := Trim(url))], pending := None)
  {
    TrimDropCr(url);
    hide Trim, DropCr;
  }

  lemma HeaderStep(base: string, slug: string)
    ensures Step(START, DropCr(HeaderLine(base, slug))) == START.(sawHeader := true)
  {
    TrimDropCr(HeaderLine(base, slug));
    var pre := "#EXTM3U url-tvg=\"" + base + "/r/" + slug + "/epg.xml";
    assert HeaderLine(base, slug) == pre + "\"";
    assert TrimRight("\"") == "\"";
    TrimRightConcat(pre, "\"");
    assert pre[0] == '#';
    var line := Trim(HeaderLine(base, slug));
    assert line == HeaderLine(base, slug);
    assert HasTag(line, EXTM3U) by {
      assert line[..7] == EXTM3U;
      SamePrefix(line, EXTM3U);
    }
  }

  lemma SamePrefix(line: string, tag: string)
    requires |tag| <= |line| && line[..|tag|] == tag && forall i :: 0 <= i < |tag| ==> UpperAscii(tag[i]) == tag[i]
    ensures HasTag(line, tag)
  {
    forall i | 0 <= i < |tag| ensures UpperAscii(line[i]) == tag[i] {
      assert line[..|tag|][i] == line[i];
    }
  }

  predicate GoodPlaylist(base: string, slug: string, rows: seq<Row>) {
    && Without(base, '\n') && Without(slug, '\n')
    && forall i :: 0 <= i < |rows| ==> GoodRow(rows[i]) && GoodUrl(UrlLine(base, rows[i]))
  }

  /** After the header and k rows: k entries, nothing pending, no warning. */
  lemma {:induction false} RowsComeBack(base: string, rows: seq<Row>, lines: seq<string>)
    requires forall i :: 0 <= i < |rows| ==> GoodRow(rows[i]) && GoodUrl(UrlLine(base, rows[i]))
    requires |lines| == |RowLines(base, rows)| && forall i :: 0 <= i < |lines| ==> lines[i] == DropCr(RowLines(base, rows)[i])
    ensures ParseLines(START.(sawHeader := true), lines)
         == START.(sawHeader := true, entries := EntriesOf(base, rows))
  {
    hide GoodRow, GoodUrl, InfoLine, UrlLine, EntryOf, DropCr, Step;
    if rows != [] {
      var n := |rows| - 1;
      var before := RowLines(base, rows[..n]);
      var m := |before|;
      RowsComeBack(base, rows[..n], lines[..m]);
      var r := rows[n];
      var p := ParseLines(START.(sawHeader := true), lines[..m]);
      assert RowLines(base, rows) == before + [InfoLine(r), UrlLine(base, r)];
      assert lines[m] == DropCr(InfoLine(r)) && lines[m + 1] == DropCr(UrlLine(base, r));
      InfoStep(p, r);
      NamedEntry(base, r);
      UrlStep(Step(p, lines[m]), EntryOf("", r).(url := ""), UrlLine(base, r));
      assert lines[..m + 1][..m] == lines[..m] && lines[..m + 2] == lines && lines[..m + 2][..m + 1] == lines[..m + 1];
    }
  }

  lemma NamedEntry(base: string, r: Row)
    requires GoodRow(r)
    ensures EntryOf("", r).name != "" && EntryOf(base, r) == EntryOf("", r).(url := Trim(UrlLine(base, r)))
  {
    hide Trim, Sanitize, PublicTvgId;
  }

  lemma {:induction false} RowLinesAreClean(base: string, rows: seq<Row>)
    requires forall i :: 0 <= i < |rows| ==> GoodRow(rows[i]) && GoodUrl(UrlLine(base, rows[i]))
    ensures forall i :: 0 <= i < |RowLines(base, rows)| ==> Without(RowLines(base, rows)[i], '\n')
  {
    hide GoodRow, InfoLine, UrlLine, Without;
    if rows != [] {
      var n := |rows| - 1;
      RowLinesAreClean(base, rows[..n]);
      InfoIsClean(rows[n]);
    }
  }

  lemma {:induction false} JoinIsClean(attrs: seq<Attr>)
    requires GoodAttrs(attrs) && forall i :: 0 <= i < |attrs| ==> Without(attrs[i].value, '\n')
    ensures Without(JoinAttrs(attrs), '\n')
  {
    if attrs != [] {
      assert Without(AttrText(attrs[0]), '\n');
      if |attrs| > 1 {
        JoinIsClean(attrs[1..]);
      }
    }
  }

  lemma InfoIsClean(r: Row)
    requires GoodRow(r)
    ensures Without(InfoLine(r), '\n')
  {
    RowIsPlain(r);
    ValuesAreClean(r);
    JoinIsClean(AttrsOf(r));
    hide AttrsOf, JoinAttrs, GoodAttrs, GoodRow;
  }

  lemma ValuesAreClean(r: Row)
    requires GoodRow(r)
    ensures forall i :: 0 <= i < |AttrsOf(r)| ==> Without(AttrsOf(r)[i].value, '\n')
  {
    PublicIdIsGood(r);
    Escaped(r.name);
    Escaped(r.logo);
    Escaped(r.group);
    Escaped(PublicTvgId(r.source, r.tvg));
    if r.number > 0 {
      DigitsAreGood(Itoa(r.number));
    }
    hide PublicTvgId, EscapeAttr, Sanitize, Without, Trim;
  }

  /** Parsing what was printed gives one entry per row, in order, with the row's fields as far
      as sanitising and trimming go, and no warning. */
  lemma PlaylistComesBack(base: string, slug: string, rows: seq<Row>)
    requires GoodPlaylist(base, slug, rows)
    ensures Parsed(Printed(base, slug, rows)) == Ok(EntriesOf(base, rows), 0)
  {
    hide GoodRow, GoodUrl, Step, HeaderLine, UrlLine, DropCr, Unlines, ScanLines, EntriesOf, RowLines, ParseLines, Without;
    var lines := [HeaderLine(base, slug)] + RowLines(base, rows);
    RowLinesAreClean(base, rows);
    HeaderIsClean(base, slug);
    LinesComeBack(lines);
    var got := ScanLines(Unlines(lines));
    HeaderStep(base, slug);
    ParseFirst(START, got);
    RowsComeBack(base, rows, got[1..]);
  }

  /** Trimmed, on one line, without quotes or zero characters. */
  predicate Clean(s: string) {
    Trimmed(s) && forall i :: 0 <= i < |s| ==> s[i] != '\r' && s[i] != '\n' && s[i] != '\0' && s[i] != '"'
  }

  lemma CleanStays(s: string)
    requires Clean(s)
    ensures Trim(Sanitize(s)) == s && Without(s, '"')
  {
    assert Sanitize(s) == s;
    TrimmedIsFixed(s);
  }

  lemma {:induction false} EntryAt(base: string, rows: seq<Row>, i: nat)
    requires i < |rows|
    ensures |EntriesOf(base, rows)| == |rows| && EntriesOf(base, rows)[i] == EntryOf(base, rows[i])
  {
    hide EntryOf;
    var n := |rows| - 1;
    if i < n {
      EntryAt(base, rows[..n], i);
    } else if n > 0 {
      EntryAt(base, rows[..n], 0);
    }
  }

  /** A row of clean text comes back as it was, to the letter. */
  lemma CleanRowComesBack(base: string, slug: string, rows: seq<Row>, i: nat)
    requires GoodPlaylist(base, slug, rows) && i < |rows|
    requires var r := rows[i];
             Clean(r.name) && Clean(r.group) && Clean(r.logo) && Clean(PublicTvgId(r.source, r.tvg)) && r.number >= 0
    requires Trimmed(base + "/stream/" + rows[i].channel)
    ensures var parsed, r := Parsed(Printed(base, slug, rows)), rows[i];
            parsed.Ok? && |parsed.entries| == |rows|
            && parsed.entries[i] == Entry(r.name, r.number, PublicTvgId(r.source, r.tvg), r.group, r.logo,
                                          base + "/stream/" + r.channel, map[])
  {
    var r := rows[i];
    PlaylistComesBack(base, slug, rows);
    EntryAt(base, rows, i);
    CleanStays(r.name);
    CleanStays(r.group);
    CleanStays(r.logo);
    CleanStays(PublicTvgId(r.source, r.tvg));
    TrimmedIsFixed(base + "/stream/" + r.channel);
    hide Trim, Sanitize, Clean, PublicTvgId, Trimmed, Parsed, Printed, EntriesOf, GoodPlaylist;
  }

  lemma HeaderIsClean(base: string, slug: string)
    requires Without(base, '\n') && Without(slug, '\n')
    ensures Without(HeaderLine(base, slug), '\n')
  {
  }

  lemma {:induction false} ParseFirst(p: Parse, lines: seq<string>)
    requires lines != []
    ensures ParseLines(p, lines) == ParseLines(Step(p, lines[0]), lines[1..])
  {
    hide Step;
    var n := |lines| - 1;
    if n == 0 {
      assert lines[..0] == [];
    } else {
      ParseFirst(p, lines[..n]);
      assert lines[..n][1..] == lines[1..][..n - 1];
    }
  }

  // ---------------------------------------------------------------- ids shared with the guide

  /** The id a row advertises is, before escaping, the id of the row's channel in the relay's
      guide, whenever its source's document has the channel; and the guide has no other ids. */
  lemma AdvertisedIdsAreGuideIds(ms: set<Mapping>, docs: map<int, Doc>)
    requires Stored(ms)
    ensures forall r: Row :: Mapping(r.source, r.tvg) in Found(ms, docs) ==>
              PublicTvgId(r.source, r.tvg) in Build(ms, docs).channels
              && Attr("tvg-id", EscapeAttr(PublicTvgId(r.source, r.tvg))) in AttrsOf(r)
    ensures forall id :: id in Build(ms, docs).channels ==>
              exists m :: m in Found(ms, docs) && PublicTvgId(m.source, m.tvg) == id
  {
    hide EscapeAttr, AllChannels, Trim;
    AllChannelsIs(ms, docs);
    forall r: Row | Mapping(r.source, r.tvg) in Found(ms, docs)
      ensures PublicTvgId(r.source, r.tvg) in Build(ms, docs).channels
      ensures Attr("tvg-id", EscapeAttr(PublicTvgId(r.source, r.tvg))) in AttrsOf(r)
    {
      var m := Mapping(r.source, r.tvg);
      assert StoredMapping(m);
      TrimmedIsFixed(m.tvg);
      assert PublicId(m) == PublicTvgId(r.source, r.tvg);
      assert AttrsOf(r)[0] == Attr("tvg-id", EscapeAttr(PublicTvgId(r.source, r.tvg)));
    }
    forall id | id in Build(ms, docs).channels
      ensures exists m :: m in Found(ms, docs) && PublicTvgId(m.source, m.tvg) == id
    {
      var m :| m in Found(ms, docs) && PublicId(m) == id;
      assert PublicTvgId(m.source, m.tvg) == id;
    }
  }
}
