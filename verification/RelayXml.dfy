/** The XMLTV document of one relay: the sources' documents merged under public ids and
    written in a fixed order (internal/core/epg/public.go, internal/core/epg/relay_builder.go,
    the sorting in internal/core/epg/service.go). */
module RelayXml {
  import opened Seqs
  import opened Text
  import opened StableSorting

  datatype Channel = Channel(id: string, displayNames: seq<string>, icons: seq<string>)

  /** `title` is the preferred title text the sort looks at; `details` the rest. */
  datatype Programme = Programme(channel: string, start: string, title: string, details: string)

  datatype Doc = Doc(channels: map<string, Channel>, programmes: seq<Programme>)

  /** A channel's complete EPG pair as seen from a relay. */
  datatype Mapping = Mapping(source: int, tvg: string)

  // ---------------------------------------------------------------- public ids

  function PublicTvgId(source: int, tvg: string): (id: string)
    ensures id == "" <==> source <= 0 || Trim(tvg) == ""
  {
    if source <= 0 || Trim(tvg) == "" then "" else "epg" + Itoa(source) + "-" + Trim(tvg)
  }

  lemma {:induction false} SplitAtDash(a: string, b: string, x: string, y: string)
    requires Digits(a) && Digits(b) && a + "-" + x == b + "-" + y
    ensures a == b && x == y
  {
    var s, t := a + "-" + x, b + "-" + y;
    if a == "" || b == "" {
      assert s[0] == t[0];
      assert a == b == "";
      assert s[1..] == x && t[1..] == y;
    } else {
      assert s[0] == a[0] && t[0] == b[0];
      assert s[1..] == a[1..] + "-" + x && t[1..] == b[1..] + "-" + y;
      SplitAtDash(a[1..], b[1..], x, y);
      assert a == [a[0]] + a[1..] && b == [b[0]] + b[1..];
    }
  }

  /** Public ids never collide: they determine the source and the trimmed tvg-id. */
  lemma PublicTvgIdInjective(s1: int, t1: string, s2: int, t2: string)
    requires PublicTvgId(s1, t1) == PublicTvgId(s2, t2) != ""
    ensures s1 == s2 && Trim(t1) == Trim(t2)
  {
    var a, b := Itoa(s1) + "-" + Trim(t1), Itoa(s2) + "-" + Trim(t2);
    assert PublicTvgId(s1, t1) == "epg" + a && PublicTvgId(s2, t2) == "epg" + b;
    assert ("epg" + a)[3..] == a && ("epg" + b)[3..] == b;
    SplitAtDash(Itoa(s1), Itoa(s2), Trim(t1), Trim(t2));
    ItoaInjective(s1, s2);
  }

  // ---------------------------------------------------------------- one source's share

  /** What the store keeps in a complete pair: a positive source, a trimmed non-empty id. */
  predicate StoredMapping(m: Mapping) {
    m.source > 0 && m.tvg != "" && Trimmed(m.tvg)
  }

  predicate Stored(ms: set<Mapping>) {
    forall m :: m in ms ==> StoredMapping(m)
  }

  function Sources(ms: set<Mapping>): set<int> {
    set m | m in ms :: m.source
  }

  /** allowed[source] in processRelay: raw tvg-id to public id. */
  function Rewrite(ms: set<Mapping>, source: int): map<string, string> {
    map m | m in ms && m.source == source && PublicTvgId(source, m.tvg) != "" :: m.tvg := PublicTvgId(source, m.tvg)
  }

  /** The programmes one source contributes, renamed, in document order. */
  function Renamed(programmes: seq<Programme>, rewrite: map<string, string>): seq<Programme> {
    if programmes == [] then []
    else
      (if programmes[0].channel in rewrite then [programmes[0].(channel := rewrite[programmes[0].channel])] else [])
      + Renamed(programmes[1..], rewrite)
  }

  predicate InjectiveRewrite(rewrite: map<string, string>) {
    forall a, b :: a in rewrite && b in rewrite && rewrite[a] == rewrite[b] ==> a == b
  }

  lemma RewriteInjective(ms: set<Mapping>, source: int)
    requires Stored(ms)
    ensures InjectiveRewrite(Rewrite(ms, source))
    ensures forall tvg :: tvg in Rewrite(ms, source) <==> Mapping(source, tvg) in ms
    ensures forall tvg :: tvg in Rewrite(ms, source) ==>
              Rewrite(ms, source)[tvg] == PublicTvgId(source, tvg) != ""
  {
    var rw := Rewrite(ms, source);
    forall m | m in ms ensures Trim(m.tvg) == m.tvg && PublicTvgId(m.source, m.tvg) != "" {
      TrimmedIsFixed(m.tvg);
    }
    forall a, b | a in rw && b in rw && rw[a] == rw[b] ensures a == b {
      assert Mapping(source, a) in ms && Mapping(source, b) in ms;
      PublicTvgIdInjective(source, a, source, b);
    }
  }

  // ---------------------------------------------------------------- merging

  /** The pairs whose raw id is a channel of its source's document. */
  function Found(ms: set<Mapping>, docs: map<int, Doc>): set<Mapping> {
    set m | m in ms && m.source in docs && m.tvg in docs[m.source].channels
  }

  function PublicId(m: Mapping): string {
    PublicTvgId(m.source, m.tvg)
  }

  lemma PublicIdDistinct(m: Mapping, n: Mapping)
    requires StoredMapping(m) && StoredMapping(n) && PublicId(m) == PublicId(n)
    ensures m == n
  {
    TrimmedIsFixed(m.tvg);
    TrimmedIsFixed(n.tvg);
    PublicTvgIdInjective(m.source, m.tvg, n.source, n.tvg);
  }

  lemma PublicIdsDistinct(ms: set<Mapping>)
    requires Stored(ms)
    ensures forall m, n :: m in ms && n in ms && PublicId(m) == PublicId(n) ==> m == n
  {
    forall m, n | m in ms && n in ms && PublicId(m) == PublicId(n) ensures m == n {
      PublicIdDistinct(m, n);
    }
  }

  /** The merged channel table, said without any order. */
  ghost function AllChannels(ms: set<Mapping>, docs: map<int, Doc>): map<string, Channel>
    requires Stored(ms)
  {
    PublicIdsDistinct(ms);
    map m | m in Found(ms, docs) :: PublicId(m) := docs[m.source].channels[m.tvg].(id := PublicId(m))
  }

  function Share(ms: set<Mapping>, docs: map<int, Doc>, source: int): seq<Programme> {
    if source in docs then Renamed(docs[source].programmes, Rewrite(ms, source)) else []
  }

  /** The merged programme list for one order of the sources. */
  function AllProgrammes(ms: set<Mapping>, docs: map<int, Doc>, order: seq<int>): seq<Programme> {
    if order == [] then []
    else AllProgrammes(ms, docs, order[..|order| - 1]) + Share(ms, docs, order[|order| - 1])
  }

  predicate ProgrammeLe(a: Programme, b: Programme) {
    if a.channel != b.channel then StringLe(a.channel, b.channel)
    else if a.start != b.start then StringLe(a.start, b.start)
    else StringLe(a.title, b.title)
  }

  lemma ProgrammeOrder()
    ensures TotalPreorder(ProgrammeLe)
  {
    forall a, b ensures ProgrammeLe(a, b) || ProgrammeLe(b, a) {
      StringLeTotal(a.channel, b.channel);
      StringLeTotal(a.start, b.start);
      StringLeTotal(a.title, b.title);
    }
    forall a, b, c | ProgrammeLe(a, b) && ProgrammeLe(b, c) ensures ProgrammeLe(a, c) {
      ProgrammeLeTransitive(a, b, c);
    }
  }

  lemma ProgrammeLeTransitive(a: Programme, b: Programme, c: Programme)
    requires ProgrammeLe(a, b) && ProgrammeLe(b, c)
    ensures ProgrammeLe(a, c)
  {
    if a.channel != b.channel || b.channel != c.channel {
      if a.channel == c.channel {
        StringLeAntisymmetric(a.channel, b.channel);
      } else if a.channel != b.channel && b.channel != c.channel {
        StringLeTransitive(a.channel, b.channel, c.channel);
      }
    } else if a.start != b.start || b.start != c.start {
      if a.start == c.start {
        StringLeAntisymmetric(a.start, b.start);
      } else if a.start != b.start && b.start != c.start {
        StringLeTransitive(a.start, b.start, c.start);
      }
    } else {
      StringLeTransitive(a.title, b.title, c.title);
    }
  }

  lemma TiedProgrammes(a: Programme, b: Programme)
    requires Same(a, b, ProgrammeLe)
    ensures a.channel == b.channel
  {
    if a.channel != b.channel {
      StringLeAntisymmetric(a.channel, b.channel);
    }
  }

  // ---------------------------------------------------------------- order independence

  /** A source's share only has channels under that source's public ids. */
  lemma {:induction false} RenamedChannels(ps: seq<Programme>, rewrite: map<string, string>)
    ensures forall p :: p in Renamed(ps, rewrite) ==> exists raw :: raw in rewrite && rewrite[raw] == p.channel
  {
    if ps != [] {
      RenamedChannels(ps[1..], rewrite);
      if ps[0].channel in rewrite {
        assert rewrite[ps[0].channel] == ps[0].(channel := rewrite[ps[0].channel]).channel;
      }
    }
  }

  /** Two sources never contribute programmes that tie. */
  lemma SharesDoNotTie(ms: set<Mapping>, docs: map<int, Doc>, s: int, t: int, x: Programme)
    requires Stored(ms) && s != t
    requires Ties(Share(ms, docs, s), x, ProgrammeLe) != []
    ensures Ties(Share(ms, docs, t), x, ProgrammeLe) == []
  {
    if Ties(Share(ms, docs, t), x, ProgrammeLe) != [] {
      var a := TiedRaw(ms, docs, s, x);
      var b := TiedRaw(ms, docs, t, x);
      PublicIdDistinct(Mapping(s, a), Mapping(t, b));
    }
  }

  lemma TiedRaw(ms: set<Mapping>, docs: map<int, Doc>, s: int, x: Programme) returns (raw: string)
    requires Stored(ms) && Ties(Share(ms, docs, s), x, ProgrammeLe) != []
    ensures Mapping(s, raw) in ms && PublicTvgId(s, raw) == x.channel
  {
    var share := Share(ms, docs, s);
    TiesMember(share, x, ProgrammeLe);
    var p :| p in share && Same(p, x, ProgrammeLe);
    TiedProgrammes(p, x);
    RenamedChannels(docs[s].programmes, Rewrite(ms, s));
    RewriteInjective(ms, s);
    raw :| raw in Rewrite(ms, s) && Rewrite(ms, s)[raw] == p.channel;
  }

  /** Where a source with ties to x stands in the order does not matter. */
  lemma {:induction false} TiesInOrder(ms: set<Mapping>, docs: map<int, Doc>, order: seq<int>, s: int, x: Programme)
    requires Stored(ms) && NoRepeats(order)
    requires Ties(Share(ms, docs, s), x, ProgrammeLe) != []
    ensures Ties(AllProgrammes(ms, docs, order), x, ProgrammeLe)
         == if s in order then Ties(Share(ms, docs, s), x, ProgrammeLe) else []
  {
    hide Share, Ties, ProgrammeLe, StoredMapping;
    NoTies(x, ProgrammeLe);
    if order != [] {
      var last, rest := order[|order| - 1], order[..|order| - 1];
      TiesInOrder(ms, docs, rest, s, x);
      TiesConcat(AllProgrammes(ms, docs, rest), Share(ms, docs, last), x, ProgrammeLe);
      assert order == rest + [last];
      if last != s {
        SharesDoNotTie(ms, docs, s, last, x);
      } else {
        assert s !in rest;
      }
    }
  }

  lemma {:induction false} NoTiesInOrder(ms: set<Mapping>, docs: map<int, Doc>, order: seq<int>, x: Programme)
    requires forall s :: s in order ==> Ties(Share(ms, docs, s), x, ProgrammeLe) == []
    ensures Ties(AllProgrammes(ms, docs, order), x, ProgrammeLe) == []
  {
    if order != [] {
      var last, rest := order[|order| - 1], order[..|order| - 1];
      NoTiesInOrder(ms, docs, rest, x);
      TiesConcat(AllProgrammes(ms, docs, rest), Share(ms, docs, last), x, ProgrammeLe);
    }
  }

  /** The written programme list does not depend on the order sources are merged in. */
  lemma OrderDoesNotMatter(ms: set<Mapping>, docs: map<int, Doc>, a: seq<int>, b: seq<int>)
    requires Stored(ms) && NoRepeats(a) && NoRepeats(b)
    requires forall s :: s in a <==> s in b
    ensures StableSort(AllProgrammes(ms, docs, a), ProgrammeLe) == StableSort(AllProgrammes(ms, docs, b), ProgrammeLe)
  {
    ProgrammeOrder();
    hide ProgrammeLe, AllProgrammes, Share;
    var pa, pb := AllProgrammes(ms, docs, a), AllProgrammes(ms, docs, b);
    forall x ensures Ties(pa, x, ProgrammeLe) == Ties(pb, x, ProgrammeLe) {
      if s :| s in a && Ties(Share(ms, docs, s), x, ProgrammeLe) != [] {
        TiesInOrder(ms, docs, a, s, x);
        TiesInOrder(ms, docs, b, s, x);
      } else {
        NoTiesInOrder(ms, docs, a, x);
        NoTiesInOrder(ms, docs, b, x);
      }
    }
    StableSortIs(pa, ProgrammeLe);
    assert IsStableSort(StableSort(pa, ProgrammeLe), pb, ProgrammeLe);
    StableSortUnique(StableSort(pa, ProgrammeLe), pb, ProgrammeLe);
  }

  // ---------------------------------------------------------------- the relay's document

  /** What is written: channels by id, programmes in the stable order. */
  datatype Rendered = Rendered(channels: map<string, Channel>, programmes: seq<Programme>)

  ghost function Build(ms: set<Mapping>, docs: map<int, Doc>): Rendered
    requires Stored(ms)
  {
    Rendered(AllChannels(ms, docs), StableSort(AllProgrammes(ms, docs, SomeOrder(Sources(ms))), ProgrammeLe))
  }

  /** The document under construction. */
  class Document {
    var channels: map<string, Channel>
    var programmes: seq<Programme>

    constructor ()
      ensures channels == map[] && programmes == []
    {
      channels, programmes := map[], [];
    }
  }

  function Within(ms: set<Mapping>, sources: set<int>): set<Mapping> {
    set m | m in ms && m.source in sources
  }

  /** mergeDocument: one source's channels, in whatever order the map yields them, and its
      programmes. Nothing already merged is overwritten. */
  method MergeDocument(dst: Document, src: Doc, rewrite: map<string, string>)
    requires InjectiveRewrite(rewrite)
    modifies dst
    ensures dst.programmes == old(dst.programmes) + Renamed(src.programmes, rewrite)
    ensures Merged(rewrite, src.channels, old(dst.channels), dst.channels)
  {
    var todo := src.channels.Keys;
    ghost var done: set<string> := {};
    while todo != {}
      invariant done + todo == src.channels.Keys && done !! todo
      invariant dst.programmes == old(dst.programmes)
      invariant dst.channels.Keys == old(dst.channels.Keys) + set raw | raw in done && raw in rewrite :: rewrite[raw]
      invariant forall raw :: raw in done && raw in rewrite ==>
                  dst.channels[rewrite[raw]] == src.channels[raw].(id := rewrite[raw])
      invariant forall id :: id in old(dst.channels) && (forall raw :: raw in done && raw in rewrite ==> rewrite[raw] != id)
                  ==> dst.channels[id] == old(dst.channels[id])
      decreases todo
    {
      var id :| id in todo;
      if id in rewrite {
        dst.channels := dst.channels[rewrite[id] := src.channels[id].(id := rewrite[id])];
      }
      todo, done := todo - {id}, done + {id};
    }
    assert done == src.channels.Keys;
    AppendProgrammes(dst, src.programmes, rewrite);
  }

  method AppendProgrammes(dst: Document, programmes: seq<Programme>, rewrite: map<string, string>)
    modifies dst`programmes
    ensures dst.programmes == old(dst.programmes) + Renamed(programmes, rewrite)
  {
    assert programmes[0..] == programmes;
    for i := 0 to |programmes|
      invariant dst.programmes + Renamed(programmes[i..], rewrite) == old(dst.programmes) + Renamed(programmes, rewrite)
    {
      var prog := programmes[i];
      assert programmes[i..][1..] == programmes[i + 1..];
      if prog.channel in rewrite {
        dst.programmes := dst.programmes + [prog.(channel := rewrite[prog.channel])];
      }
    }
  }

  /** The merged table, entry by entry. */
  lemma AllChannelsIs(ms: set<Mapping>, docs: map<int, Doc>)
    requires Stored(ms)
    ensures forall m :: m in Found(ms, docs) ==>
              PublicId(m) in AllChannels(ms, docs)
              && AllChannels(ms, docs)[PublicId(m)] == docs[m.source].channels[m.tvg].(id := PublicId(m))
    ensures forall id :: id in AllChannels(ms, docs) ==> exists m :: m in Found(ms, docs) && PublicId(m) == id
  {
    PublicIdsDistinct(ms);
    assert forall m :: m in Found(ms, docs) ==> m in ms;
    var all := AllChannels(ms, docs);
    forall id | id in all ensures exists m :: m in Found(ms, docs) && PublicId(m) == id {
      assert id in all.Keys;
    }
  }

  /** after is before with a document's renamed channels put in. */
  ghost predicate Merged(rw: map<string, string>, channels: map<string, Channel>, before: map<string, Channel>, after: map<string, Channel>) {
    && after.Keys == before.Keys + (set raw | raw in channels && raw in rw :: rw[raw])
    && (forall raw :: raw in channels && raw in rw ==> after[rw[raw]] == channels[raw].(id := rw[raw]))
    && forall id :: id in before && (forall raw :: raw in channels && raw in rw ==> rw[raw] != id) ==> after[id] == before[id]
  }

  /** One more source adds its own entries and, its ids being its own, overwrites none. */
  lemma OneMoreSource(ms: set<Mapping>, docs: map<int, Doc>, done: set<int>, s: int, before: map<string, Channel>, after: map<string, Channel>)
    requires Stored(ms) && s !in done && s in docs
    requires before == AllChannels(Within(ms, done), docs)
    requires Merged(Rewrite(ms, s), docs[s].channels, before, after)
    ensures after == AllChannels(Within(ms, done + {s}), docs)
  {
    hide AllChannels, Rewrite, PublicId, StoredMapping, PublicTvgId;
    var old', new' := Within(ms, done), Within(ms, done + {s});
    var rw := Rewrite(ms, s);
    RewriteInjective(ms, s);
    AllChannelsIs(old', docs);
    AllChannelsIs(new', docs);
    var target := AllChannels(new', docs);
    forall m | m in Found(new', docs)
      ensures PublicId(m) in after && after[PublicId(m)] == target[PublicId(m)]
    {
      MergedEntry(ms, docs, done, s, before, after, m);
    }
    forall id | id in after ensures id in target {
      if id in before {
        var m :| m in Found(old', docs) && PublicId(m) == id;
        assert m in Found(new', docs);
      } else {
        var raw :| raw in docs[s].channels && raw in rw && rw[raw] == id;
        assert Mapping(s, raw) in Found(new', docs);
        MergedEntry(ms, docs, done, s, before, after, Mapping(s, raw));
        IdOf(s, raw);
      }
    }
  }

  lemma IdOf(s: int, raw: string)
    ensures PublicId(Mapping(s, raw)) == PublicTvgId(s, raw)
  {
  }

  lemma MergedEntry(ms: set<Mapping>, docs: map<int, Doc>, done: set<int>, s: int, before: map<string, Channel>, after: map<string, Channel>, m: Mapping)
    requires Stored(ms) && s !in done && s in docs && m in Found(Within(ms, done + {s}), docs)
    requires before == AllChannels(Within(ms, done), docs)
    requires Merged(Rewrite(ms, s), docs[s].channels, before, after)
    ensures PublicId(m) in after && after[PublicId(m)] == docs[m.source].channels[m.tvg].(id := PublicId(m))
  {
    var rw := Rewrite(ms, s);
    RewriteInjective(ms, s);
    AllChannelsIs(Within(ms, done), docs);
    PublicIdsDistinct(ms);
    IdOf(m.source, m.tvg);
    hide AllChannels, Rewrite, PublicId, StoredMapping;
    if m.source == s {
      assert m.tvg in rw && rw[m.tvg] == PublicId(m);
    } else {
      assert m in Found(Within(ms, done), docs);
      forall raw | raw in docs[s].channels && raw in rw ensures rw[raw] != PublicId(m) {
        IdOf(s, raw);
        assert Mapping(s, raw) in ms && Mapping(s, raw) != m;
      }
    }
  }

  /** processRelay's merge, ranging over the needed sources in whatever order. The result is
      Build's, so it does not depend on that order. */
  method MergeAll(ms: set<Mapping>, docs: map<int, Doc>) returns (r: Rendered)
    requires Stored(ms) && Sources(ms) <= docs.Keys
    ensures r == Build(ms, docs)
  {
    var merged := new Document();
    var todo := set m | m in ms :: m.source;
    ghost var order: seq<int> := [];
    ghost var done: set<int> := {};
    assert Within(ms, done) == {};
    AllChannelsIs({}, docs);
    while todo != {}
      invariant todo !! done && todo + done == Sources(ms)
      invariant NoRepeats(order) && forall s :: s in order <==> s in done
      invariant merged.channels == AllChannels(Within(ms, done), docs)
      invariant merged.programmes == AllProgrammes(ms, docs, order)
      decreases todo
    {
      var s :| s in todo;
      RewriteInjective(ms, s);
      ghost var before := merged.channels;
      MergeDocument(merged, docs[s], Rewrite(ms, s));
      OneMoreSource(ms, docs, done, s, before, merged.channels);
      todo, done, order := todo - {s}, done + {s}, order + [s];
    }
    OrderDoesNotMatter(ms, docs, order, SomeOrder(Sources(ms)));
    assert Within(ms, done) == ms;
    r := Rendered(merged.channels, StableSort(merged.programmes, ProgrammeLe));
  }
}
