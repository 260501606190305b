/** Parsing an HLS playlist line by line (parseHLSPlaylist in internal/core/stream/hls.go).
    Durations and bandwidths are not modelled. */
module HlsPlaylist {
  import opened Seqs
  import opened Text
  import opened Hls

  datatype Playlist = Playlist(
    isMaster: bool, endList: bool, mediaSequence: int, segments: seq<Segment>, variants: seq<string>,
    next: int, sawMedia: bool)

  const BLANK := Playlist(false, false, 0, [], [], 0, false)

  datatype Error = NotAPlaylist | Encrypted | ByteRanges | Fmp4

  datatype Result = Ok(playlist: Playlist) | Err(error: Error)

  const STREAM_INF := "#EXT-X-STREAM-INF:"
  const MEDIA := "#EXT-X-MEDIA:"
  const KEY := "#EXT-X-KEY:"
  const BYTERANGE := "#EXT-X-BYTERANGE:"
  const MAP := "#EXT-X-MAP:"
  const ENDLIST := "#EXT-X-ENDLIST"
  const TARGETDURATION := "#EXT-X-TARGETDURATION:"
  const MEDIA_SEQUENCE := "#EXT-X-MEDIA-SEQUENCE:"
  const EXTINF := "#EXTINF:"

  const TAGS := {STREAM_INF, MEDIA, ENDLIST, TARGETDURATION, MEDIA_SEQUENCE, EXTINF}

  /** strconv.ParseInt in base 10 with the error dropped: 0 for a syntax error, the nearest
      int64 for a number out of range. */
  function ParseInt64(s: string): (n: int)
    ensures MIN_INT64 <= n <= MAX_INT64
  {
    var negative := s != "" && s[0] == '-';
    var digits := if s != "" && (s[0] == '-' || s[0] == '+') then s[1..] else s;
    if digits == "" || !Digits(digits) then 0
    else
      var v: int := if negative then 0 - Value(digits) else Value(digits);
      if v > MAX_INT64 then MAX_INT64 else if v < MIN_INT64 then MIN_INT64 else v
  }

  /** seq++ on an int64. */
  function Next(n: int): int {
    if n == MAX_INT64 then MIN_INT64 else n + 1
  }

  /** Decimal numbers are read back, with either sign; those out of range become the nearest. */
  lemma NumbersAreRead(n: int)
    requires n >= 0
    ensures ParseInt64(Itoa(n)) == ParseInt64("+" + Itoa(n)) == if n <= MAX_INT64 then n else MAX_INT64
    ensures ParseInt64("-" + Itoa(n)) == if -n >= MIN_INT64 then -n else MIN_INT64
  {
    ValueOfItoa(n);
    assert Itoa(n)[0] != '-' && Itoa(n)[0] != '+';
    assert ("+" + Itoa(n))[1..] == Itoa(n) && ("-" + Itoa(n))[1..] == Itoa(n);
    hide Itoa, Value;
  }

  predicate IsUri(raw: string) {
    Trim(raw) != "" && Trim(raw)[0] != '#'
  }

  predicate IsMediaSequence(raw: string) {
    HasTag(Trim(raw), MEDIA_SEQUENCE)
  }

  function SequenceOf(raw: string): int
    requires IsMediaSequence(raw)
  {
    ParseInt64(Trim(Trim(raw)[|MEDIA_SEQUENCE|..]))
  }

  function Refusal(line: string): Option<Error> {
    if HasTag(line, STREAM_INF) || HasTag(line, MEDIA) then None
    else if HasTag(line, KEY) then Some(Encrypted)
    else if HasTag(line, BYTERANGE) then Some(ByteRanges)
    else if HasTag(line, MAP) then Some(Fmp4)
    else None
  }

  /** One line, trimmed and not refused. */
  function Step(p: Playlist, line: string): Playlist {
    if line == "" then p
    else if HasTag(line, STREAM_INF) then p.(isMaster := true)
    else if HasTag(line, MEDIA) then p
    else if HasTag(line, ENDLIST) then p.(endList := true)
    else if HasTag(line, TARGETDURATION) then p
    else if HasTag(line, MEDIA_SEQUENCE) then
      var n := ParseInt64(Trim(line[|MEDIA_SEQUENCE|..]));
      p.(mediaSequence := n, next := n)
    else if HasTag(line, EXTINF) then p.(sawMedia := true)
    else if line[0] == '#' then p
    else if p.isMaster && !p.sawMedia then p.(variants := p.variants + [line])
    else p.(segments := p.segments + [Segment(line, p.next)], next := Next(p.next))
  }

  function ParseLines(lines: seq<string>): Result {
    if lines == [] then Ok(BLANK)
    else
      var n := |lines| - 1;
      match ParseLines(lines[..n])
      case Err(e) => Err(e)
      case Ok(p) =>
        match Refusal(Trim(lines[n]))
        case Some(e) => Err(e)
        case None => Ok(Step(p, Trim(lines[n])))
  }

  predicate PartAt(s: string, part: string, i: nat) {
    i + |part| <= |s| && s[i..i + |part|] == part
  }

  /** strings.Contains. */
  ghost predicate Contains(s: string, part: string) {
    exists i :: PartAt(s, part, i)
  }

  /** The text contains "#EXTM3U", which cannot span lines. */
  ghost predicate Recognised(lines: seq<string>) {
    exists i :: 0 <= i < |lines| && Contains(lines[i], "#EXTM3U")
  }

  method FindPart(s: string, part: string) returns (found: bool)
    ensures found == Contains(s, part)
  {
    var i := 0;
    while i + |part| <= |s|
      invariant forall j: nat :: j < i ==> !PartAt(s, part, j)
      decreases |s| - i
    {
      if s[i..i + |part|] == part {
        assert PartAt(s, part, i);
        return true;
      }
      i := i + 1;
    }
    found := false;
  }

  method Recognise(lines: seq<string>) returns (found: bool)
    ensures found == Recognised(lines)
  {
    hide Contains;
    for i := 0 to |lines|
      invariant forall j :: 0 <= j < i ==> !Contains(lines[j], "#EXTM3U")
    {
      var here := FindPart(lines[i], "#EXTM3U");
      if here {
        return true;
      }
    }
    found := false;
  }

  /** parseHLSPlaylist. */
  method ParseHlsPlaylist(lines: seq<string>) returns (r: Result)
    ensures r == if Recognised(lines) then ParseLines(lines) else Err(NotAPlaylist)
  {
    hide HasTag, Trim, ParseInt64, Recognised;
    var found := Recognise(lines);
    if !found {
      return Err(NotAPlaylist);
    }
    var pl := BLANK;
    for k := 0 to |lines|
      invariant ParseLines(lines[..k]) == Ok(pl)
    {
      assert lines[..k + 1][..k] == lines[..k];
      var line := Trim(lines[k]);
      if line == "" {
        BlankLine(pl);
      } else if HasTag(line, STREAM_INF) {
        pl := ParseTagged(pl, line);
      } else if HasTag(line, MEDIA) {
      } else if HasTag(line, KEY) {
        RefusedAfter(lines, k + 1);
        return Err(Encrypted);
      } else if HasTag(line, BYTERANGE) {
        RefusedAfter(lines, k + 1);
        return Err(ByteRanges);
      } else if HasTag(line, MAP) {
        RefusedAfter(lines, k + 1);
        return Err(Fmp4);
      } else {
        pl := ParseTagged(pl, line);
      }
    }
    assert lines[..|lines|] == lines;
    r := Ok(pl);
  }

  lemma BlankLine(p: Playlist)
    ensures Refusal("") == None && Step(p, "") == p
  {
  }

  /** The lines that are not refused; after them the loop goes on. */
  method ParseTagged(pl: Playlist, line: string) returns (p: Playlist)
    requires line != "" && (HasTag(line, STREAM_INF) || !HasTag(line, MEDIA))
    ensures p == Step(pl, line)
  {
    hide HasTag, Trim, ParseInt64;
    p := pl;
    if HasTag(line, STREAM_INF) {
      p := p.(isMaster := true);
    } else if HasTag(line, ENDLIST) {
      p := p.(endList := true);
    } else if HasTag(line, TARGETDURATION) {
    } else if HasTag(line, MEDIA_SEQUENCE) {
      TagFits(line, MEDIA_SEQUENCE);
      p := p.(mediaSequence := ParseInt64(Trim(line[|MEDIA_SEQUENCE|..])));
      p := p.(next := p.mediaSequence);
    } else if HasTag(line, EXTINF) {
      p := p.(sawMedia := true);
    } else if line[0] == '#' {
    } else if p.isMaster && !p.sawMedia {
      p := p.(variants := p.variants + [line]);
    } else {
      p := p.(segments := p.segments + [Segment(line, p.next)]);
      p := p.(next := Next(p.next));
    }
  }

  lemma {:induction false} RefusedAfter(lines: seq<string>, k: nat)
    requires k <= |lines| && ParseLines(lines[..k]).Err?
    ensures ParseLines(lines) == ParseLines(lines[..k])
    decreases |lines|
  {
    if k == |lines| {
      assert lines[..k] == lines;
    } else {
      var n := |lines| - 1;
      assert lines[..n][..k] == lines[..k];
      RefusedAfter(lines[..n], k);
    }
  }

  // ---------------------------------------------------------------- what the lines say

  predicate Says(raw: string, tag: string) {
    HasTag(Trim(raw), tag)
  }

  /** Some line has the tag. */
  predicate Heard(lines: seq<string>, tag: string) {
    exists i :: 0 <= i < |lines| && Says(lines[i], tag)
  }

  predicate IsRefused(raw: string) {
    Says(raw, KEY) || Says(raw, BYTERANGE) || Says(raw, MAP)
  }

  function Reason(raw: string): Error
    requires IsRefused(raw)
  {
    if Says(raw, KEY) then Encrypted else if Says(raw, BYTERANGE) then ByteRanges else Fmp4
  }

  /** Address lines after such lines name variants, not segments. */
  predicate ListsVariants(before: seq<string>) {
    Heard(before, STREAM_INF) && !Heard(before, EXTINF)
  }

  /** The address lines, trimmed, that name variants, or those that name segments. */
  function Addresses(lines: seq<string>, variants: bool): seq<string> {
    if lines == [] then []
    else
      var n := |lines| - 1;
      Addresses(lines[..n], variants)
      + if IsUri(lines[n]) && ListsVariants(lines[..n]) == variants then [Trim(lines[n])] else []
  }

  function Uris(segments: seq<Segment>): seq<string> {
    seq(|segments|, i requires 0 <= i < |segments| => segments[i].uri)
  }

  /** Tags that differ somewhere cannot both start one line. */
  lemma TagsClash(line: string, t: string, u: string, k: nat)
    requires k < |t| && k < |u| && t[k] != u[k] && HasTag(line, t)
    ensures !HasTag(line, u)
  {
  }

  lemma StreamInfApart(line: string)
    requires HasTag(line, STREAM_INF)
    ensures !HasTag(line, KEY) && !HasTag(line, BYTERANGE) && !HasTag(line, MAP) && !HasTag(line, ENDLIST)
    ensures !HasTag(line, EXTINF) && !HasTag(line, MEDIA)
  {
    assert STREAM_INF[7] == 'S' && KEY[7] == 'K' && BYTERANGE[7] == 'B' && MAP[7] == 'M' && ENDLIST[7] == 'E';
    assert MEDIA[7] == 'M' && STREAM_INF[4] == '-' && EXTINF[4] == 'I';
    hide HasTag;
    TagsClash(line, STREAM_INF, KEY, 7);
    TagsClash(line, STREAM_INF, BYTERANGE, 7);
    TagsClash(line, STREAM_INF, MAP, 7);
    TagsClash(line, STREAM_INF, ENDLIST, 7);
    TagsClash(line, STREAM_INF, EXTINF, 4);
    TagsClash(line, STREAM_INF, MEDIA, 7);
  }

  lemma MediaApart(line: string)
    requires HasTag(line, MEDIA)
    ensures !HasTag(line, KEY) && !HasTag(line, BYTERANGE) && !HasTag(line, MAP) && !HasTag(line, ENDLIST)
    ensures !HasTag(line, EXTINF)
  {
    assert MEDIA[7] == 'M' && MEDIA[8] == 'E' && KEY[7] == 'K' && BYTERANGE[7] == 'B' && MAP[8] == 'A' && ENDLIST[7] == 'E';
    assert MEDIA[4] == '-' && EXTINF[4] == 'I';
    hide HasTag;
    TagsClash(line, MEDIA, KEY, 7);
    TagsClash(line, MEDIA, BYTERANGE, 7);
    TagsClash(line, MEDIA, MAP, 8);
    TagsClash(line, MEDIA, ENDLIST, 7);
    TagsClash(line, MEDIA, EXTINF, 4);
  }

  lemma InfApart(line: string)
    requires HasTag(line, EXTINF)
    ensures !HasTag(line, ENDLIST) && !HasTag(line, TARGETDURATION) && !HasTag(line, MEDIA_SEQUENCE)
  {
    assert EXTINF[4] == 'I' && ENDLIST[4] == '-' && TARGETDURATION[4] == '-' && MEDIA_SEQUENCE[4] == '-';
    hide HasTag;
    TagsClash(line, EXTINF, ENDLIST, 4);
    TagsClash(line, EXTINF, TARGETDURATION, 4);
    TagsClash(line, EXTINF, MEDIA_SEQUENCE, 4);
  }

  lemma TagsStart(line: string, tag: string)
    requires HasTag(line, tag) && tag != "" && tag[0] == '#'
    ensures line != "" && line[0] == '#'
  {
  }

  /** One line that is not refused. */
  lemma StepSays(p: Playlist, raw: string)
    requires !IsRefused(raw)
    ensures var q := Step(p, Trim(raw));
            q.endList == (p.endList || Says(raw, ENDLIST))
            && q.isMaster == (p.isMaster || Says(raw, STREAM_INF))
            && q.sawMedia == (p.sawMedia || Says(raw, EXTINF))
            && q.variants == p.variants + (if IsUri(raw) && p.isMaster && !p.sawMedia then [Trim(raw)] else [])
            && Uris(q.segments) == Uris(p.segments) + (if IsUri(raw) && !(p.isMaster && !p.sawMedia) then [Trim(raw)] else [])
  {
    var line := Trim(raw);
    forall tag | HasTag(line, tag) && tag in TAGS ensures line != "" && line[0] == '#' {
      TagsStart(line, tag);
    }
    if HasTag(line, STREAM_INF) {
      StreamInfApart(line);
    } else if HasTag(line, MEDIA) {
      MediaApart(line);
    } else if HasTag(line, EXTINF) {
      InfApart(line);
    }
    hide HasTag, Trim, ParseInt64;
  }

  lemma RefusalSays(raw: string)
    ensures Refusal(Trim(raw)) == if IsRefused(raw) then Some(Reason(raw)) else None
  {
    var line := Trim(raw);
    if HasTag(line, STREAM_INF) {
      StreamInfApart(line);
    } else if HasTag(line, MEDIA) {
      MediaApart(line);
    }
    hide HasTag, Trim;
  }

  lemma HeardStep(lines: seq<string>, raw: string, tag: string)
    ensures Heard(lines + [raw], tag) == (Heard(lines, tag) || Says(raw, tag))
  {
    hide Says;
    var all := lines + [raw];
    assert forall i :: 0 <= i < |lines| ==> all[i] == lines[i];
    assert all[|lines|] == raw;
  }

  /** A playlist is refused exactly when a line has a tag that is not supported, and the first
      such line is the reason. */
  lemma {:induction false} RefusedExactly(lines: seq<string>)
    ensures ParseLines(lines).Err? <==> exists i :: 0 <= i < |lines| && IsRefused(lines[i])
    ensures forall i :: 0 <= i < |lines| && IsRefused(lines[i]) && (forall j :: 0 <= j < i ==> !IsRefused(lines[j])) ==>
              ParseLines(lines) == Err(Reason(lines[i]))
  {
    hide IsRefused, Refusal, Reason, Step, Trim;
    if lines != [] {
      var n := |lines| - 1;
      RefusedExactly(lines[..n]);
      RefusalSays(lines[n]);
      assert forall i :: 0 <= i < n ==> lines[..n][i] == lines[i];
    }
  }

  /** What an accepted playlist holds: it has ended exactly when some line says so, and its
      variants and segments are the address lines, all of them, in order. */
  lemma {:induction false} AcceptedIsWhatLinesSay(lines: seq<string>)
    requires ParseLines(lines).Ok?
    ensures var p := ParseLines(lines).playlist;
            p.endList == Heard(lines, ENDLIST) && p.isMaster == Heard(lines, STREAM_INF) && p.sawMedia == Heard(lines, EXTINF)
            && p.variants == Addresses(lines, true) && Uris(p.segments) == Addresses(lines, false)
  {
    hide IsRefused, Step, Heard, Says, Trim, Refusal, IsUri, Uris;
    if lines == [] {
      NothingHeard();
    } else {
      var n := |lines| - 1;
      assert lines == lines[..n] + [lines[n]];
      AcceptedIsWhatLinesSay(lines[..n]);
      RefusalSays(lines[n]);
      StepSays(ParseLines(lines[..n]).playlist, lines[n]);
      HeardStep(lines[..n], lines[n], ENDLIST);
      HeardStep(lines[..n], lines[n], STREAM_INF);
      HeardStep(lines[..n], lines[n], EXTINF);
    }
  }

  lemma NothingHeard()
    ensures forall tag :: !Heard([], tag)
    ensures Uris([]) == []
  {
  }

  // ---------------------------------------------------------------- numbering

  /** Section 4.3.3.2 of RFC 8216: the tag comes before the first segment. */
  predicate SequenceFirst(lines: seq<string>) {
    forall i, j :: 0 <= i < j < |lines| && IsUri(lines[i]) ==> !IsMediaSequence(lines[j])
  }

  /** The number the last EXT-X-MEDIA-SEQUENCE gives, else 0. */
  function Declared(lines: seq<string>): int {
    if lines == [] then 0
    else if IsMediaSequence(lines[|lines| - 1]) then SequenceOf(lines[|lines| - 1])
    else Declared(lines[..|lines| - 1])
  }

  /** Segment i has the base number plus i, as long as that fits. */
  predicate Numbered(p: Playlist, base: int) {
    && (forall i :: 0 <= i < |p.segments| && base + i <= MAX_INT64 ==> p.segments[i].seqNo == base + i)
    && (base + |p.segments| <= MAX_INT64 ==> p.next == base + |p.segments|)
    && p.mediaSequence == base
  }

  lemma TagsApart(line: string)
    requires HasTag(line, MEDIA_SEQUENCE)
    ensures Refusal(line) == None && line != "" && !HasTag(line, MEDIA) && !HasTag(line, STREAM_INF)
    ensures !HasTag(line, ENDLIST) && !HasTag(line, TARGETDURATION)
  {
    assert UpperAscii(line[12]) == '-' && UpperAscii(line[7]) == 'M' && UpperAscii(line[8]) == 'E';
    assert MEDIA[12] == ':' && STREAM_INF[7] == 'S' && ENDLIST[7] == 'E' && TARGETDURATION[7] == 'T';
    assert KEY[7] == 'K' && BYTERANGE[7] == 'B' && MAP[8] == 'A';
  }

  /** Only address lines add segments. */
  lemma StepNumbers(p: Playlist, line: string)
    requires Refusal(line) == None
    ensures var q := Step(p, line);
            if HasTag(line, MEDIA_SEQUENCE)
            then q == p.(mediaSequence := q.mediaSequence, next := q.mediaSequence)
            else q.mediaSequence == p.mediaSequence
                 && ((q.segments == p.segments && q.next == p.next)
                     || (line != "" && line[0] != '#' && q.segments == p.segments + [Segment(line, p.next)] && q.next == Next(p.next)))
  {
    if HasTag(line, MEDIA_SEQUENCE) {
      TagsApart(line);
    }
    hide HasTag, ParseInt64, Trim;
  }

  lemma {:induction false} NoUrisNoSegments(lines: seq<string>)
    requires ParseLines(lines).Ok? && forall i :: 0 <= i < |lines| ==> !IsUri(lines[i])
    ensures ParseLines(lines).playlist.segments == []
  {
    hide Step, Refusal, HasTag, Trim;
    if lines != [] {
      var n := |lines| - 1;
      NoUrisNoSegments(lines[..n]);
      StepNumbers(ParseLines(lines[..n]).playlist, Trim(lines[n]));
      assert !IsUri(lines[n]);
    }
  }

  lemma {:induction false} SegmentsAreNumbered(lines: seq<string>)
    requires ParseLines(lines).Ok? && SequenceFirst(lines)
    ensures Numbered(ParseLines(lines).playlist, Declared(lines))
  {
    hide Step, Refusal, HasTag, Trim, ParseInt64;
    if lines != [] {
      var n := |lines| - 1;
      var p := ParseLines(lines[..n]).playlist;
      SegmentsAreNumbered(lines[..n]);
      StepNumbers(p, Trim(lines[n]));
      if IsMediaSequence(lines[n]) {
        forall i | 0 <= i < n ensures !IsUri(lines[..n][i]) {
        }
        NoUrisNoSegments(lines[..n]);
        SequenceStep(p, lines[n]);
      }
    }
  }

  lemma SequenceStep(p: Playlist, raw: string)
    requires IsMediaSequence(raw)
    ensures Step(p, Trim(raw)).mediaSequence == SequenceOf(raw)
  {
    TagsApart(Trim(raw));
    hide HasTag, ParseInt64, Trim;
  }
}
