/** The generations of the guide sources: manifests, generation files, index files and the
    index tags held in memory (internal/core/epg/manifest.go). */
module SourceCache {
  import opened Seqs
  import opened Text
  import opened RelayXml
  import opened Library
  import opened StableSorting

  datatype Manifest = Manifest(gen: nat, url: string)

  datatype ChannelInfo = ChannelInfo(id: string, names: seq<string>)

  datatype Tag = Tag(url: string, gen: nat, channels: seq<ChannelInfo>)

  /** What was fetched from where; a generation's file never changes once written. */
  datatype Generation = Generation(source: int, url: string, doc: Doc)

  /** eligibleSource between its reads and its write: the manifest has been read, then the
      tag to store has been loaded or rebuilt. */
  datatype Lookup =
    | Opened(source: int, url: string, gen: nat)
    | Loaded(source: int, url: string, gen: nat, tag: Tag)

  datatype Cache = Cache(
    manifests: map<int, Manifest>,
    gens: map<nat, Generation>,    // every generation ever written
    live: set<nat>,                // those whose file exists
    indexes: map<nat, Tag>,        // index files
    tags: map<int, Tag>,           // Service.indexes
    lookups: map<nat, Lookup>,
    next: nat)

  const EMPTY := Cache(map[], map[], {}, map[], map[], map[], 0)

  function NonEmpty(names: seq<string>): seq<string> {
    if names == [] then []
    else (if names[0] != "" then [names[0]] else []) + NonEmpty(names[1..])
  }

  /** Every name that is not blank is kept, in its place, and no other. */
  lemma {:induction false} NonEmptyKeeps(before: seq<string>, name: string, after: seq<string>)
    ensures NonEmpty(before + [name] + after) == NonEmpty(before) + (if name != "" then [name] else []) + NonEmpty(after)
  {
    var all := before + [name] + after;
    if before == [] {
      assert all[0] == name && all[1..] == after;
    } else {
      assert all[0] == before[0] && all[1..] == before[1..] + [name] + after;
      NonEmptyKeeps(before[1..], name, after);
    }
  }

  /** The channels of a document, each once, in some order. */
  predicate IsIndexOf(channels: seq<ChannelInfo>, doc: Doc) {
    && NoRepeats(channels)
    && (forall i :: 0 <= i < |channels| ==>
          channels[i].id in doc.channels
          && channels[i].names == NonEmpty(doc.channels[channels[i].id].displayNames))
    && forall id :: id in doc.channels ==>
         ChannelInfo(id, NonEmpty(doc.channels[id].displayNames)) in channels
  }

  // ---------------------------------------------------------------- steps

  /** writeSourceGenerationFiles, then writeSourceManifest. */
  function Publish(c: Cache, source: int, url: string, fetchedFrom: string, doc: Doc, channels: seq<ChannelInfo>): Cache {
    c.(gens := c.gens[c.next := Generation(source, fetchedFrom, doc)],
       live := c.live + {c.next},
       indexes := c.indexes[c.next := Tag(Url(url), c.next, channels)],
       manifests := c.manifests[source := Manifest(c.next, Url(url))],
       next := c.next + 1)
  }

  function SetTag(c: Cache, source: int, tag: Tag): Cache {
    c.(tags := c.tags[source := tag])
  }

  /** The in-memory part of InvalidateSource and EnqueueDeleteSourceFiles. */
  function Forget(c: Cache, sources: set<int>): Cache {
    c.(tags := c.tags - sources)
  }

  /** deleteSourceFiles: every file whose name starts with the source's id. */
  function Wipe(c: Cache, source: int): Cache {
    c.(manifests := c.manifests - {source},
       live := (set g | g in c.live && (g in c.gens ==> c.gens[g].source != source)),
       indexes := (map g | g in c.indexes && (g in c.gens ==> c.gens[g].source != source) :: c.indexes[g]),
       tags := c.tags - {source})
  }

  /** The manifest is for this URL and its generation's file exists. */
  predicate Usable(c: Cache, source: int, url: string) {
    source in c.manifests && c.manifests[source].url == Url(url) != "" && c.manifests[source].gen in c.live
  }

  predicate TagFits(t: Tag, gen: nat, url: string) {
    t.gen == gen && Url(t.url) == url
  }

  function Open(c: Cache, t: nat, source: int, url: string): Cache {
    if Usable(c, source, url)
    then c.(lookups := c.lookups[t := Opened(source, Url(url), c.manifests[source].gen)])
    else c.(lookups := c.lookups - {t})
  }

  predicate Hit(c: Cache, t: nat)
    requires t in c.lookups
  {
    var l := c.lookups[t];
    l.source in c.tags && TagFits(c.tags[l.source], l.gen, l.url)
  }

  /** On a miss the index file is read; if it does not fit, the index is rebuilt from the
      document (`channels`) and the index file repaired, unless the document is gone. */
  function Load(c: Cache, t: nat, channels: seq<ChannelInfo>): Cache
    requires t in c.lookups && c.lookups[t].Opened?
  {
    var l := c.lookups[t];
    if l.gen in c.indexes && TagFits(c.indexes[l.gen], l.gen, l.url) then
      c.(lookups := c.lookups[t := Loaded(l.source, l.url, l.gen, Tag(l.url, l.gen, c.indexes[l.gen].channels))])
    else if l.gen in c.live then
      var tag := Tag(l.url, l.gen, channels);
      c.(indexes := c.indexes[l.gen := tag], lookups := c.lookups[t := Loaded(l.source, l.url, l.gen, tag)])
    else c.(lookups := c.lookups - {t})
  }

  function Store(c: Cache, t: nat): Cache
    requires t in c.lookups && c.lookups[t].Loaded?
  {
    SetTag(c, c.lookups[t].source, c.lookups[t].tag)
  }

  // ---------------------------------------------------------------- invariant

  predicate TagOk(c: Cache, source: int, t: Tag) {
    t.gen in c.gens
    && c.gens[t.gen].source == source
    && t.url == Url(c.gens[t.gen].url)
    && IsIndexOf(t.channels, c.gens[t.gen].doc)
  }

  predicate ManifestsOk(c: Cache) {
    && (forall s :: s in c.manifests ==>
          c.manifests[s].gen in c.gens && c.gens[c.manifests[s].gen].source == s
          && c.manifests[s].url == Url(c.gens[c.manifests[s].gen].url))
    && (forall g :: g in c.gens ==> g < c.next)
    && (forall g :: g in c.live ==> g in c.gens)
  }

  predicate TagsOk(c: Cache) {
    && (forall s :: s in c.tags ==> TagOk(c, s, c.tags[s]))
    && (forall g :: g in c.indexes ==> c.indexes[g].gen == g && g in c.gens && TagOk(c, c.gens[g].source, c.indexes[g]))
  }

  predicate LookupOk(c: Cache, l: Lookup) {
    && l.gen in c.gens && c.gens[l.gen].source == l.source && l.url == Url(c.gens[l.gen].url)
    && (l.Loaded? ==> l.tag.gen == l.gen && TagOk(c, l.source, l.tag))
  }

  predicate LookupsOk(c: Cache) {
    forall t :: t in c.lookups ==> LookupOk(c, c.lookups[t])
  }

  predicate CacheInv(c: Cache) {
    ManifestsOk(c) && TagsOk(c) && LookupsOk(c)
  }

  lemma PublishKeeps(c: Cache, source: int, url: string, fetchedFrom: string, doc: Doc, channels: seq<ChannelInfo>)
    requires CacheInv(c) && Url(url) == Url(fetchedFrom) && IsIndexOf(channels, doc)
    ensures CacheInv(Publish(c, source, url, fetchedFrom, doc, channels))
    ensures TagOk(Publish(c, source, url, fetchedFrom, doc, channels), source, Tag(Url(url), c.next, channels))
  {
    hide IsIndexOf, Url;
  }

  lemma SetTagKeeps(c: Cache, source: int, tag: Tag)
    requires CacheInv(c) && TagOk(c, source, tag)
    ensures CacheInv(SetTag(c, source, tag))
  {
    hide IsIndexOf, Url;
  }

  lemma ForgetKeeps(c: Cache, sources: set<int>)
    requires CacheInv(c)
    ensures CacheInv(Forget(c, sources))
  {
    hide IsIndexOf, Url;
  }

  lemma WipeKeeps(c: Cache, source: int)
    requires CacheInv(c)
    ensures CacheInv(Wipe(c, source))
  {
    hide IsIndexOf, Url;
  }

  /** A wiped source has no file and no tag left; every other one serves what it did. */
  lemma WipeTakesOneSource(c: Cache, source: int, other: int, url: string)
    requires ManifestsOk(c)
    ensures var c' := Wipe(c, source);
            (forall g :: g in c'.live ==> c.gens[g].source != source)
            && source !in c'.manifests && source !in c'.tags && !Usable(c', source, url)
    ensures other != source ==>
              var c' := Wipe(c, source);
              (Usable(c', other, url) <==> Usable(c, other, url))
              && (other in c'.tags <==> other in c.tags) && (other in c.tags ==> c'.tags[other] == c.tags[other])
  {
    hide Url;
  }

  lemma OpenKeeps(c: Cache, t: nat, source: int, url: string)
    requires CacheInv(c)
    ensures CacheInv(Open(c, t, source, url))
  {
    hide IsIndexOf, Url;
  }

  lemma LoadKeeps(c: Cache, t: nat, channels: seq<ChannelInfo>)
    requires CacheInv(c) && t in c.lookups && c.lookups[t].Opened?
    requires IsIndexOf(channels, c.gens[c.lookups[t].gen].doc)
    ensures CacheInv(Load(c, t, channels))
  {
    hide IsIndexOf, Url, TagFits;
    FittingIndex(c, t);
  }

  /** A fitting index file is the index of the generation asked for. */
  lemma FittingIndex(c: Cache, t: nat)
    requires CacheInv(c) && t in c.lookups
    ensures var l := c.lookups[t];
            l.gen in c.indexes ==> TagOk(c, l.source, Tag(l.url, l.gen, c.indexes[l.gen].channels))
  {
    hide IsIndexOf, Url;
  }

  lemma StoreKeeps(c: Cache, t: nat)
    requires CacheInv(c) && t in c.lookups && c.lookups[t].Loaded?
    ensures CacheInv(Store(c, t))
  {
    hide IsIndexOf, Url, TagOk, ManifestsOk, TagsOk, SetTag;
    assert LookupOk(c, c.lookups[t]);
    SetTagKeeps(c, c.lookups[t].source, c.lookups[t].tag);
  }

  /** What eligibleSource returns: the stored tag on a hit, the loaded one on a miss. */
  predicate Answers(c: Cache, t: nat, tag: Tag) {
    t in c.lookups
    && ((c.lookups[t].Opened? && Hit(c, t) && tag == c.tags[c.lookups[t].source])
        || (c.lookups[t].Loaded? && tag == c.lookups[t].tag))
  }

  /** Whatever happened to the source meanwhile, the answer is the index of the generation
      the manifest named, fetched from the URL asked for. */
  lemma AnswerFitsGeneration(c: Cache, t: nat, tag: Tag)
    requires CacheInv(c) && Answers(c, t, tag)
    ensures var l := c.lookups[t];
            tag.gen == l.gen && tag.url == l.url
            && l.gen in c.gens && c.gens[l.gen].source == l.source && Url(c.gens[l.gen].url) == l.url
            && IsIndexOf(tag.channels, c.gens[l.gen].doc)
  {
    hide IsIndexOf, Url;
    var l := c.lookups[t];
    assert LookupOk(c, l);
  }

  /** A source is looked up exactly when its manifest and document serve the URL; then a hit or
      the index file or the document answers, with the generation of the manifest. */
  lemma UsableIsAnswered(c: Cache, t: nat, source: int, url: string, channels: seq<ChannelInfo>)
    ensures t in Open(c, t, source, url).lookups <==> Usable(c, source, url)
    ensures Usable(c, source, url) ==>
              var c1 := Open(c, t, source, url);
              c1.lookups[t].Opened? && c1.lookups[t].gen == c.manifests[source].gen
              && (Hit(c1, t) ==> source in c.tags && Answers(c1, t, c.tags[source]))
              && (var c2 := Load(c1, t, channels);
                  t in c2.lookups && c2.lookups[t].Loaded? && Answers(c2, t, c2.lookups[t].tag)
                  && c2.lookups[t].tag.gen == c.manifests[source].gen)
  {
    hide Url;
  }

  // ---------------------------------------------------------------- indexFromDoc

  /** The loop over display names. */
  method Names(all: seq<string>) returns (names: seq<string>)
    ensures names == NonEmpty(all)
  {
    names := [];
    assert all[0..] == all;
    for i := 0 to |all|
      invariant names + NonEmpty(all[i..]) == NonEmpty(all)
    {
      assert all[i..][1..] == all[i + 1..];
      if all[i] != "" {
        names := names + [all[i]];
      }
    }
  }

  /** One entry per channel, in whatever order the map yields them, then sorted. */
  method IndexFromDoc(doc: Doc, le: (ChannelInfo, ChannelInfo) -> bool) returns (channels: seq<ChannelInfo>)
    ensures IsIndexOf(channels, doc)
    ensures TotalPreorder(le) ==> Sorted(channels, le)
  {
    var out: seq<ChannelInfo> := [];
    var todo := doc.channels.Keys;
    while todo != {}
      invariant todo <= doc.channels.Keys
      invariant forall i, j :: 0 <= i < j < |out| ==> out[i].id != out[j].id
      invariant forall i :: 0 <= i < |out| ==>
                  out[i].id in doc.channels && out[i].id !in todo
                  && out[i].names == NonEmpty(doc.channels[out[i].id].displayNames)
      invariant forall id :: id in doc.channels && id !in todo ==>
                  ChannelInfo(id, NonEmpty(doc.channels[id].displayNames)) in out
      decreases todo
    {
      var id :| id in todo;
      var names := Names(doc.channels[id].displayNames);
      out := out + [ChannelInfo(id, names)];
      todo := todo - {id};
    }
    channels := StableSort(out, le);
    SortedIndex(out, doc, le);
    if TotalPreorder(le) {
      StableSortIs(out, le);
    }
  }

  lemma SortedIndex(out: seq<ChannelInfo>, doc: Doc, le: (ChannelInfo, ChannelInfo) -> bool)
    requires IsIndexOf(out, doc)
    ensures IsIndexOf(StableSort(out, le), doc)
  {
    SortMembers(out, le);
    var channels := StableSort(out, le);
    forall i | 0 <= i < |channels| ensures channels[i] in out {
      assert channels[i] in multiset(channels);
    }
    forall c | c in out ensures c in channels {
      assert c in multiset(out);
    }
    PermutedNoRepeats(out, channels);
  }
}
