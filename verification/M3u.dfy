/** M3U playlists: what the relay's playlist handler prints (internal/httpapi/relays.go,
    internal/httpapi/server.go) and how the importer parses (internal/core/m3u/parser.go).
    Guide URLs in the header are not modelled. */
module M3u {
  import opened Seqs
  import opened Text
  import opened RelayXml

  // ---------------------------------------------------------------- printing

  /** One lineup row as the playlist shows it. */
  datatype Row = Row(name: string, source: int, tvg: string, logo: string, number: int, group: string, channel: string)

  function Sanitized(c: char): char {
    if c == '\r' || c == '\n' || c == '\0' then ' ' else c
  }

  /** sanitizePlaylistText. */
  function Sanitize(s: string): string {
    seq(|s|, i requires 0 <= i < |s| => Sanitized(s[i]))
  }

  function EscapeQuotes(s: string): string {
    if s == "" then "" else (if s[0] == '"' then "\\\"" else [s[0]]) + EscapeQuotes(s[1..])
  }

  /** escapeAttr. */
  function EscapeAttr(s: string): string {
    EscapeQuotes(Sanitize(s))
  }

  datatype Attr = Attr(key: string, value: string)

  function AttrText(a: Attr): string {
    a.key + "=\"" + a.value + "\""
  }

  /** strings.Join with a blank. */
  function JoinAttrs(attrs: seq<Attr>): string {
    if attrs == [] then ""
    else if |attrs| == 1 then AttrText(attrs[0])
    else AttrText(attrs[0]) + " " + JoinAttrs(attrs[1..])
  }

  function When(cond: bool, a: Attr): seq<Attr> {
    if cond then [a] else []
  }

  function AttrsOf(r: Row): seq<Attr> {
    When(PublicTvgId(r.source, r.tvg) != "", Attr("tvg-id", EscapeAttr(PublicTvgId(r.source, r.tvg))))
    + [Attr("tvg-name", EscapeAttr(r.name))]
    + When(r.logo != "", Attr("tvg-logo", EscapeAttr(r.logo)))
    + When(r.number > 0, Attr("tvg-chno", if r.number > 0 then Itoa(r.number) else ""))
    + When(r.group != "", Attr("group-title", EscapeAttr(r.group)))
  }

  function InfoLine(r: Row): string {
    "#EXTINF:-1 " + JoinAttrs(AttrsOf(r)) + "," + Sanitize(r.name)
  }

  function UrlLine(base: string, r: Row): string {
    base + "/stream/" + r.channel
  }

  function HeaderLine(base: string, slug: string): string {
    "#EXTM3U url-tvg=\"" + base + "/r/" + slug + "/epg.xml\""
  }

  function RowLines(base: string, rows: seq<Row>): seq<string> {
    if rows == [] then []
    else RowLines(base, rows[..|rows| - 1]) + [InfoLine(rows[|rows| - 1]), UrlLine(base, rows[|rows| - 1])]
  }

  function Unlines(lines: seq<string>): string {
    if lines == [] then "" else Unlines(lines[..|lines| - 1]) + lines[|lines| - 1] + "\n"
  }

  /** The response body. */
  function Printed(base: string, slug: string, rows: seq<Row>): string {
    Unlines([HeaderLine(base, slug)] + RowLines(base, rows))
  }

  method PrintAttrs(r: Row) returns (attrs: seq<Attr>)
    ensures attrs == AttrsOf(r)
  {
    attrs := [];
    var pub := PublicTvgId(r.source, r.tvg);
    if pub != "" {
      attrs := attrs + [Attr("tvg-id", EscapeAttr(pub))];
    }
    attrs := attrs + [Attr("tvg-name", EscapeAttr(r.name))];
    if r.logo != "" {
      attrs := attrs + [Attr("tvg-logo", EscapeAttr(r.logo))];
    }
    if r.number > 0 {
      attrs := attrs + [Attr("tvg-chno", Itoa(r.number))];
    }
    if r.group != "" {
      attrs := attrs + [Attr("group-title", EscapeAttr(r.group))];
    }
  }

  /** handleRelayPlaylist from the lineup on. */
  method PrintPlaylist(base: string, slug: string, rows: seq<Row>) returns (body: string)
    ensures body == Printed(base, slug, rows)
  {
    hide AttrsOf, HeaderLine, JoinAttrs, Sanitize;
    ghost var lines := [HeaderLine(base, slug)];
    body := HeaderLine(base, slug) + "\n";
    assert lines[..0] == [] && Unlines([]) + lines[0] == lines[0];
    for i := 0 to |rows|
      invariant lines == [HeaderLine(base, slug)] + RowLines(base, rows[..i]) && body == Unlines(lines)
    {
      var attrs := PrintAttrs(rows[i]);
      var info := "#EXTINF:-1 " + JoinAttrs(attrs) + "," + Sanitize(rows[i].name);
      body := body + info + "\n" + UrlLine(base, rows[i]) + "\n";
      TwoLines(lines, info, UrlLine(base, rows[i]));
      lines := lines + [info, UrlLine(base, rows[i])];
      assert rows[..i + 1][..i] == rows[..i];
    }
    assert rows[..|rows|] == rows;
  }

  lemma TwoLines(lines: seq<string>, a: string, b: string)
    ensures Unlines(lines + [a, b]) == Unlines(lines) + a + "\n" + b + "\n"
  {
    var n := |lines|;
    var all := lines + [a, b];
    assert all[..n + 1] == lines + [a] && all[..n + 1][..n] == lines;
  }

  // ---------------------------------------------------------------- lines

  function DropCr(s: string): string {
    if s != "" && s[|s| - 1] == '\r' then s[..|s| - 1] else s
  }

  /** bufio.ScanLines. */
  function ScanLines(text: string): seq<string>
    decreases |text|
  {
    if text == "" then []
    else
      var n := Index(text, '\n');
      if n == |text| then [DropCr(text)] else [DropCr(text[..n])] + ScanLines(text[n + 1..])
  }

  // ---------------------------------------------------------------- parsing

  datatype Entry = Entry(name: string, number: nat, tvgId: string, group: string, logo: string, url: string, headers: map<string, string>)

  datatype Parse = Parse(entries: seq<Entry>, pending: Option<Entry>, warnings: nat, sawHeader: bool)

  const START := Parse([], None, 0, false)

  function Flush(p: Parse): Parse {
    match p.pending
    case None => p
    case Some(e) =>
      if e.url == "" then p.(warnings := p.warnings + 1, pending := None)
      else p.(entries := p.entries + [if e.name == "" then e.(name := e.url) else e], pending := None)
  }

  /** splitEXTINF: the first comma outside quotes from i on, or the length. */
  function UnquotedComma(s: string, i: nat, inQuote: bool): (n: nat)
    requires i <= |s|
    ensures i <= n <= |s|
    decreases |s| - i
  {
    if i == |s| then i
    else if s[i] == '"' then UnquotedComma(s, i + 1, !inQuote)
    else if s[i] == ',' && !inQuote then i
    else UnquotedComma(s, i + 1, inQuote)
  }

  predicate IsBlank(c: char) {
    c == ' ' || c == '\t'
  }

  function SkipBlanks(s: string): string {
    if s != "" && IsBlank(s[0]) then SkipBlanks(s[1..]) else s
  }

  function BlankAt(s: string): (n: nat)
    ensures n <= |s| && (n < |s| ==> IsBlank(s[n])) && forall i :: 0 <= i < n ==> !IsBlank(s[i])
  {
    if s == "" || IsBlank(s[0]) then 0 else 1 + BlankAt(s[1..])
  }

  lemma {:induction false} SkipShrinks(s: string)
    ensures |SkipBlanks(s)| <= |s|
  {
    if s != "" && IsBlank(s[0]) {
      SkipShrinks(s[1..]);
    }
  }

  /** The value at the front of s, and what follows it. */
  function ValueAt(s: string): (r: (string, string))
    requires s != ""
    ensures |r.1| <= |s|
  {
    if s[0] == '"' then
      var end := Index(s[1..], '"');
      if end == |s| - 1 then (s[1..], "") else (s[1..][..end], s[1..][end + 1..])
    else
      var end := BlankAt(s);
      (s[..end], s[end..])
  }

  function ParseAttrs(s: string, out: map<string, string>): map<string, string>
    decreases |s|
  {
    SkipShrinks(s);
    var t := SkipBlanks(s);
    var eq := Index(t, '=');
    if eq == |t| || eq + 1 == |t| then out
    else
      var key := LowerAscii(Trim(t[..eq]));
      var (value, rest) := ValueAt(t[eq + 1..]);
      ParseAttrs(rest, if key != "" then out[key := value] else out)
  }

  function FirstAttr(attrs: map<string, string>, keys: seq<string>): string {
    if keys == [] then ""
    else if keys[0] in attrs && Trim(attrs[keys[0]]) != "" then Trim(attrs[keys[0]])
    else FirstAttr(attrs, keys[1..])
  }

  /** strconv.Atoi on a 64-bit machine. */
  function Atoi(s: string): Option<int> {
    var negative := s != "" && s[0] == '-';
    var digits := if s != "" && (s[0] == '-' || s[0] == '+') then s[1..] else s;
    if digits == "" || !Digits(digits) then None
    else
      var v: int := if negative then 0 - Value(digits) else Value(digits);
      if -0x8000_0000_0000_0000 <= v <= 0x7FFF_FFFF_FFFF_FFFF then Some(v) else None
  }

  function NumberOf(chno: string): nat {
    if chno == "" then 0
    else match Atoi(chno)
      case Some(n) => if n >= 0 then n else 0
      case None => 0
  }

  /** The duration token is skipped. */
  function AttrsPart(meta: string): string {
    var gap := BlankAt(meta);
    if gap < |meta| then Trim(meta[gap + 1..]) else ""
  }

  function EntryFrom(attrs: map<string, string>, name: string): Entry {
    Entry(
      if name == "" then FirstAttr(attrs, ["tvg-name", "tvg_name"]) else name,
      NumberOf(FirstAttr(attrs, ["tvg-chno", "tvg-chnum", "channel-number", "chno"])),
      FirstAttr(attrs, ["tvg-id", "tvg_id"]),
      FirstAttr(attrs, ["group-title", "group_title"]),
      FirstAttr(attrs, ["tvg-logo", "tvg_logo", "logo"]),
      "", map[])
  }

  /** parseEXTINF without the tag; none for a line without an unquoted comma. */
  function ParseInfo(rest: string): Option<Entry> {
    var comma := UnquotedComma(rest, 0, false);
    if comma == |rest| then None
    else Some(EntryFrom(ParseAttrs(AttrsPart(Trim(rest[..comma])), map[]), Trim(rest[comma + 1..])))
  }

  function HeaderName(opt: string): Option<(string, nat)> {
    var lower := LowerAscii(opt);
    if "http-user-agent=" <= lower then Some(("User-Agent", 16))
    else if "http-referrer=" <= lower then Some(("Referer", 14))
    else if "http-referer=" <= lower then Some(("Referer", 13))
    else None
  }

  /** applyVLCOpt. */
  function ApplyVlcOpt(e: Entry, opt: string): Entry {
    match HeaderName(opt)
    case Some(h) => if h.1 <= |opt| then e.(headers := e.headers[h.0 := Trim(opt[h.1..])]) else e
    case None => e
  }

  const EXTM3U := "#EXTM3U"
  const EXTINF := "#EXTINF:"
  const EXTVLCOPT := "#EXTVLCOPT:"
  const EXTGRP := "#EXTGRP:"

  function TagLine(p: Parse, line: string): Parse {
    if HasTag(line, EXTM3U) then p.(sawHeader := true)
    else if HasTag(line, EXTINF) then
      var q := Flush(p);
      match ParseInfo(line[8..])
      case None => q.(warnings := q.warnings + 1, pending := None)
      case Some(e) => q.(pending := Some(e))
    else if HasTag(line, EXTVLCOPT) then
      if p.pending.None? then p else p.(pending := Some(ApplyVlcOpt(p.pending.value, Trim(line[11..]))))
    else if HasTag(line, EXTGRP) then
      if p.pending.Some? && p.pending.value.group == ""
      then p.(pending := Some(p.pending.value.(group := Trim(line[8..])))) else p
    else p
  }

  function Step(p: Parse, raw: string): Parse {
    var line := Trim(raw);
    if line == "" then p
    else if line[0] == '#' then TagLine(p, line)
    else
      var e := if p.pending.Some? then p.pending.value else Entry(line, 0, "", "", "", "", map[]);
      Flush(p.(pending := Some(e.(url := line))))
  }

  function ParseLines(p: Parse, lines: seq<string>): Parse {
    if lines == [] then p else Step(ParseLines(p, lines[..|lines| - 1]), lines[|lines| - 1])
  }

  datatype Result = Ok(entries: seq<Entry>, warnings: nat) | NotAPlaylist

  function Parsed(text: string): Result {
    var p := Flush(ParseLines(START, ScanLines(text)));
    if !p.sawHeader && p.entries == [] then NotAPlaylist else Ok(p.entries, p.warnings)
  }

  // ---------------------------------------------------------------- attributes and options

  /** The first key with a value that is not blank decides. */
  lemma {:induction false} FirstAttrIs(attrs: map<string, string>, keys: seq<string>, k: nat)
    requires k <= |keys| && forall j :: 0 <= j < k ==> keys[j] !in attrs || Trim(attrs[keys[j]]) == ""
    ensures k == |keys| ==> FirstAttr(attrs, keys) == ""
    ensures k < |keys| && keys[k] in attrs && Trim(attrs[keys[k]]) != "" ==> FirstAttr(attrs, keys) == Trim(attrs[keys[k]])
  {
    hide Trim;
    if k > 0 {
      assert keys[0] !in attrs || Trim(attrs[keys[0]]) == "";
      FirstAttrIs(attrs, keys[1..], k - 1);
    }
  }

  /** A group line fills in the group of an entry that has none. */
  lemma GroupLine(p: Parse, group: string)
    requires p.pending.Some? && Trim(EXTGRP + group) == EXTGRP + group
    ensures Step(p, EXTGRP + group)
         == p.(pending := Some(if p.pending.value.group == "" then p.pending.value.(group := Trim(group)) else p.pending.value))
  {
    var line := EXTGRP + group;
    assert line[8..] == group && line[4] == 'G';
    hide Trim;
  }

  const AGENT := "http-user-agent="
  const REFERRER := "http-referrer="

  lemma OptionStep(p: Parse, opt: string)
    requires p.pending.Some? && Trim(EXTVLCOPT + opt) == EXTVLCOPT + opt
    ensures Step(p, EXTVLCOPT + opt) == p.(pending := Some(ApplyVlcOpt(p.pending.value, Trim(opt))))
  {
    var line := EXTVLCOPT + opt;
    assert line[11..] == opt && line[4] == 'V';
    hide Trim, ApplyVlcOpt;
  }

  /** Option lines set the headers they name. */
  lemma OptionLine(p: Parse, value: string)
    requires p.pending.Some? && Trim(AGENT + value) == AGENT + value && Trim(REFERRER + value) == REFERRER + value
    requires Trim(EXTVLCOPT + (AGENT + value)) == EXTVLCOPT + (AGENT + value)
    requires Trim(EXTVLCOPT + (REFERRER + value)) == EXTVLCOPT + (REFERRER + value)
    ensures var e := p.pending.value;
            Step(p, EXTVLCOPT + (AGENT + value)) == p.(pending := Some(e.(headers := e.headers["User-Agent" := Trim(value)])))
            && Step(p, EXTVLCOPT + (REFERRER + value)) == p.(pending := Some(e.(headers := e.headers["Referer" := Trim(value)])))
  {
    OptionStep(p, AGENT + value);
    OptionStep(p, REFERRER + value);
    OptionNames(value);
    assert (AGENT + value)[16..] == value && (REFERRER + value)[14..] == value;
    hide Trim, HeaderName, Step;
  }

  lemma OptionNames(value: string)
    ensures HeaderName(AGENT + value) == Some(("User-Agent", 16)) && HeaderName(REFERRER + value) == Some(("Referer", 14))
  {
    assert LowerAscii(AGENT + value)[..16] == AGENT;
    assert LowerAscii(REFERRER + value)[..14] == REFERRER && LowerAscii(REFERRER + value)[5] == 'r';
  }

  // ---------------------------------------------------------------- entries and address lines

  function AddressLines(lines: seq<string>): seq<string> {
    if lines == [] then []
    else
      var line := Trim(lines[|lines| - 1]);
      AddressLines(lines[..|lines| - 1]) + if line != "" && line[0] != '#' then [line] else []
  }

  function Urls(entries: seq<Entry>): seq<string> {
    seq(|entries|, i requires 0 <= i < |entries| => entries[i].url)
  }

  predicate NoUrlYet(p: Parse) {
    p.pending.Some? ==> p.pending.value.url == ""
  }

  lemma StepEntries(p: Parse, raw: string)
    requires NoUrlYet(p)
    ensures var q, line := Step(p, raw), Trim(raw);
            NoUrlYet(q) && Flush(q).entries == q.entries
            && Urls(q.entries) == Urls(p.entries) + if line != "" && line[0] != '#' then [line] else []
  {
    hide HasTag, Trim, ParseAttrs, FirstAttr, AttrsPart;
  }

  /** Every address line becomes an entry, whatever lines come before it, and nothing else does. */
  lemma {:induction false} EntriesAreAddressLines(lines: seq<string>)
    ensures NoUrlYet(ParseLines(START, lines))
    ensures Urls(ParseLines(START, lines).entries) == AddressLines(lines)
    ensures Urls(Flush(ParseLines(START, lines)).entries) == AddressLines(lines)
  {
    hide Step, Trim;
    if lines != [] {
      var n := |lines| - 1;
      EntriesAreAddressLines(lines[..n]);
      StepEntries(ParseLines(START, lines[..n]), lines[n]);
    }
  }

  // ---------------------------------------------------------------- the parser's loops

  /** splitEXTINF. */
  method SplitInfo(rest: string) returns (parts: Option<(string, string)>)
    ensures var comma := UnquotedComma(rest, 0, false);
            parts == if comma == |rest| then None else Some((Trim(rest[..comma]), Trim(rest[comma + 1..])))
  {
    var inQuote := false;
    for i := 0 to |rest|
      invariant UnquotedComma(rest, i, inQuote) == UnquotedComma(rest, 0, false)
    {
      if rest[i] == '"' {
        inQuote := !inQuote;
      } else if rest[i] == ',' && !inQuote {
        return Some((Trim(rest[..i]), Trim(rest[i + 1..])));
      }
    }
    parts := None;
  }

  /** The two value forms of parseAttrs, from index i. */
  method ScanValue(s: string, i: nat) returns (value: string, next: nat)
    requires i < |s|
    ensures i <= next <= |s| && (value, s[next..]) == ValueAt(s[i..])
  {
    var t := s[i..];
    assert t[0] == s[i];
    if s[i] == '"' {
      var end := Index(s[i + 1..], '"');
      assert t[1..] == s[i + 1..];
      if end == |s| - (i + 1) {
        value, next := s[i + 1..], |s|;
        assert s[next..] == "";
      } else {
        value, next := s[i + 1..][..end], i + 1 + end + 1;
        assert t[1..][end + 1..] == s[next..];
      }
    } else {
      var end := i;
      while end < |s| && !IsBlank(s[end])
        invariant i <= end <= |s|
        invariant BlankAt(s[i..]) == end - i + BlankAt(s[end..])
      {
        assert s[end..][1..] == s[end + 1..];
        end := end + 1;
      }
      value, next := s[i..end], end;
      assert t[..end - i] == s[i..end] && t[end - i..] == s[end..];
    }
  }

  method SkipBlanksLoop(s: string, from: nat) returns (i: nat)
    requires from <= |s|
    ensures from <= i <= |s| && s[i..] == SkipBlanks(s[from..])
  {
    i := from;
    while i < |s| && IsBlank(s[i])
      invariant from <= i <= |s| && SkipBlanks(s[i..]) == SkipBlanks(s[from..])
      decreases |s| - i
    {
      assert s[i..][1..] == s[i + 1..];
      i := i + 1;
    }
  }

  lemma ParseAttrsStep(s: string, out: map<string, string>)
    ensures var t := SkipBlanks(s); var eq := Index(t, '=');
            if eq == |t| || eq + 1 == |t| then ParseAttrs(s, out) == out
            else
              var key := LowerAscii(Trim(t[..eq]));
              var v := ValueAt(t[eq + 1..]);
              ParseAttrs(s, out) == ParseAttrs(v.1, if key != "" then out[key := v.0] else out)
  {
  }

  /** parseAttrs. */
  method ParseAttrsLoop(s: string) returns (out: map<string, string>)
    ensures out == ParseAttrs(s, map[])
  {
    hide ValueAt, Trim, LowerAscii, SkipBlanks, ParseAttrs, Index;
    out := map[];
    var i: nat := 0;
    assert s[0..] == s;
    while i < |s|
      invariant i <= |s|
      invariant ParseAttrs(s[i..], out) == ParseAttrs(s, map[])
      decreases |s| - i
    {
      ParseAttrsStep(s[i..], out);
      i := SkipBlanksLoop(s, i);
      var t := s[i..];
      var eq := Index(t, '=');
      if eq == |t| || eq + 1 == |t| {
        return;
      }
      var key := LowerAscii(Trim(t[..eq]));
      assert t[eq + 1..] == s[i + eq + 1..];
      var value, next := ScanValue(s, i + eq + 1);
      if key != "" {
        out := out[key := value];
      }
      i := next;
    }
    NothingToParse(out);
    assert s[i..] == "";
  }

  lemma NothingToParse(out: map<string, string>)
    ensures ParseAttrs("", out) == out
  {
  }

  method FirstAttrLoop(attrs: map<string, string>, keys: seq<string>) returns (v: string)
    ensures v == FirstAttr(attrs, keys)
  {
    hide Trim;
    assert keys[0..] == keys;
    for i := 0 to |keys|
      invariant FirstAttr(attrs, keys[i..]) == FirstAttr(attrs, keys)
    {
      assert keys[i..][1..] == keys[i + 1..];
      v := if keys[i] in attrs then Trim(attrs[keys[i]]) else "";
      if v != "" {
        return;
      }
    }
    v := "";
  }

  method ParseInfoLine(rest: string) returns (e: Option<Entry>)
    ensures e == ParseInfo(rest)
  {
    hide Trim, UnquotedComma, ParseAttrs, FirstAttr, NumberOf, BlankAt;
    var parts := SplitInfo(rest);
    if parts.None? {
      return None;
    }
    var attrs := ParseAttrsLoop(AttrsPart(parts.value.0));
    var name := parts.value.1;
    if name == "" {
      name := FirstAttrLoop(attrs, ["tvg-name", "tvg_name"]);
    }
    var chno := FirstAttrLoop(attrs, ["tvg-chno", "tvg-chnum", "channel-number", "chno"]);
    var id := FirstAttrLoop(attrs, ["tvg-id", "tvg_id"]);
    var group := FirstAttrLoop(attrs, ["group-title", "group_title"]);
    var logo := FirstAttrLoop(attrs, ["tvg-logo", "tvg_logo", "logo"]);
    e := Some(Entry(name, NumberOf(chno), id, group, logo, "", map[]));
  }

  /** What Parse keeps between lines. */
  class Parser {
    var entries: seq<Entry>
    var pending: Option<Entry>
    var warnings: nat
    var sawHeader: bool

    ghost function Abs(): Parse
      reads this
    {
      Parse(entries, pending, warnings, sawHeader)
    }

    constructor ()
      ensures Abs() == START
    {
      entries, pending, warnings, sawHeader := [], None, 0, false;
    }

    method FlushPending()
      modifies this
      ensures Abs() == Flush(old(Abs()))
    {
      if pending.Some? {
        var e := pending.value;
        if e.url == "" {
          warnings := warnings + 1;
        } else {
          if e.name == "" {
            e := e.(name := e.url);
          }
          entries := entries + [e];
        }
        pending := None;
      }
    }

    method Tag(line: string)
      requires line != "" && line[0] == '#'
      modifies this
      ensures Abs() == TagLine(old(Abs()), line)
    {
      hide HasTag, Trim, ParseInfo, ApplyVlcOpt;
      if HasTag(line, EXTM3U) {
        sawHeader := true;
      } else if HasTag(line, EXTINF) {
        TagFits(line, EXTINF);
        FlushPending();
        var e := ParseInfoLine(line[8..]);
        if e.None? {
          warnings := warnings + 1;
          pending := None;
        } else {
          pending := e;
        }
      } else if HasTag(line, EXTVLCOPT) {
        TagFits(line, EXTVLCOPT);
        if pending.Some? {
          pending := Some(ApplyVlcOpt(pending.value, Trim(line[11..])));
        }
      } else if HasTag(line, EXTGRP) {
        TagFits(line, EXTGRP);
        if pending.Some? && pending.value.group == "" {
          pending := Some(pending.value.(group := Trim(line[8..])));
        }
      }
    }

    method Line(raw: string)
      modifies this
      ensures Abs() == Step(old(Abs()), raw)
    {
      hide TagLine, Trim;
      var line := Trim(raw);
      if line != "" {
        if line[0] == '#' {
          Tag(line);
        } else {
          if pending.None? {
            pending := Some(Entry(line, 0, "", "", "", "", map[]));
          }
          pending := Some(pending.value.(url := line));
          FlushPending();
        }
      }
    }
  }

  /** Parse. */
  method ParsePlaylist(text: string) returns (r: Result)
    ensures r == Parsed(text)
  {
    hide Step, ScanLines;
    var p := new Parser();
    var lines := ScanLines(text);
    for k := 0 to |lines|
      invariant fresh(p) && p.Abs() == ParseLines(START, lines[..k])
    {
      assert lines[..k + 1][..k] == lines[..k];
      p.Line(lines[k]);
    }
    assert lines[..|lines|] == lines;
    p.FlushPending();
    r := if !p.sawHeader && p.entries == [] then NotAPlaylist else Ok(p.entries, p.warnings);
  }
}
