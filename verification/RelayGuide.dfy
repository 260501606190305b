/** What a relay's guide holds, said of the pairs and the documents alone. */
module RelayGuide {
  import opened Seqs
  import opened Text
  import opened StableSorting
  import opened RelayXml

  // ---------------------------------------------------------------- listings

  /** The programmes of one channel with one start and title, in their order. */
  function Listings(ps: seq<Programme>, channel: string, start: string, title: string): seq<Programme> {
    if ps == [] then []
    else
      (if ps[0].channel == channel && ps[0].start == start && ps[0].title == title then [ps[0]] else [])
      + Listings(ps[1..], channel, start, title)
  }

  /** The same programmes under another channel id. */
  function Under(ps: seq<Programme>, channel: string): seq<Programme> {
    seq(|ps|, i requires 0 <= i < |ps| => ps[i].(channel := channel))
  }

  lemma SameFields(a: Programme, b: Programme)
    ensures Same(a, b, ProgrammeLe) <==> a.channel == b.channel && a.start == b.start && a.title == b.title
  {
    StringLeTotal(a.channel, a.channel);
    StringLeTotal(a.start, a.start);
    StringLeTotal(a.title, a.title);
    if Same(a, b, ProgrammeLe) {
      TiedProgrammes(a, b);
      if a.start != b.start {
        StringLeAntisymmetric(a.start, b.start);
      } else if a.title != b.title {
        StringLeAntisymmetric(a.title, b.title);
      }
    }
  }

  lemma {:induction false} TiesAreListings(ps: seq<Programme>, x: Programme)
    ensures Ties(ps, x, ProgrammeLe) == Listings(ps, x.channel, x.start, x.title)
  {
    hide Same, ProgrammeLe;
    if ps != [] {
      SameFields(ps[0], x);
      TiesAreListings(ps[1..], x);
    }
  }

  /** Renaming keeps each listing. */
  lemma {:induction false} RenamedListings(ps: seq<Programme>, rw: map<string, string>, raw: string, start: string, title: string)
    requires InjectiveRewrite(rw) && raw in rw
    ensures Listings(Renamed(ps, rw), rw[raw], start, title) == Under(Listings(ps, raw, start, title), rw[raw])
  {
    if ps != [] {
      RenamedListings(ps[1..], rw, raw, start, title);
      var rest := Renamed(ps[1..], rw);
      if ps[0].channel in rw {
        var p := ps[0].(channel := rw[ps[0].channel]);
        assert Renamed(ps, rw) == [p] + rest && ([p] + rest)[1..] == rest;
        assert p.channel == rw[raw] <==> ps[0].channel == raw;
      } else {
        assert Renamed(ps, rw) == rest;
      }
    }
  }

  // ---------------------------------------------------------------- the guide

  lemma {:induction false} NotListed(ps: seq<Programme>, channel: string, start: string, title: string)
    requires forall p :: p in ps ==> p.channel != channel
    ensures Listings(ps, channel, start, title) == []
  {
    if ps != [] {
      assert ps[0] in ps;
      NotListed(ps[1..], channel, start, title);
    }
  }

  /** Another source never lists anything under this pair's id. */
  lemma OthersDoNotList(ms: set<Mapping>, docs: map<int, Doc>, m: Mapping, t: int, x: Programme)
    requires Stored(ms) && m in ms && t != m.source && x.channel == PublicId(m)
    ensures Ties(Share(ms, docs, t), x, ProgrammeLe) == []
  {
    if Ties(Share(ms, docs, t), x, ProgrammeLe) != [] {
      var raw := TiedRaw(ms, docs, t, x);
      PublicIdDistinct(m, Mapping(t, raw));
    }
  }

  lemma GuideTies(ms: set<Mapping>, docs: map<int, Doc>, m: Mapping, x: Programme)
    requires Stored(ms) && m in ms && m.source in docs && x.channel == PublicId(m)
    ensures Ties(Build(ms, docs).programmes, x, ProgrammeLe) == Ties(Share(ms, docs, m.source), x, ProgrammeLe)
  {
    var order := SomeOrder(Sources(ms));
    var all := AllProgrammes(ms, docs, order);
    assert m.source in Sources(ms);
    ProgrammeOrder();
    StableSortIs(all, ProgrammeLe);
    hide Ties, Share, AllProgrammes, ProgrammeLe, StoredMapping, PublicId;
    if Ties(Share(ms, docs, m.source), x, ProgrammeLe) != [] {
      TiesInOrder(ms, docs, order, m.source, x);
    } else {
      forall s | s in order ensures Ties(Share(ms, docs, s), x, ProgrammeLe) == [] {
        if s != m.source {
          OthersDoNotList(ms, docs, m, s, x);
        }
      }
      NoTiesInOrder(ms, docs, order, x);
    }
    assert Build(ms, docs).programmes == StableSort(all, ProgrammeLe);
  }

  /** For every pair of the relay and every start and title, the guide lists under the pair's
      public id exactly the programmes the source's document lists under its raw id, each as
      often, in the document's order. */
  lemma GuideListsWhatSourcesList(ms: set<Mapping>, docs: map<int, Doc>, m: Mapping, start: string, title: string)
    requires Stored(ms) && m in ms && m.source in docs
    ensures Listings(Build(ms, docs).programmes, PublicTvgId(m.source, m.tvg), start, title)
         == Under(Listings(docs[m.source].programmes, m.tvg, start, title), PublicTvgId(m.source, m.tvg))
  {
    var x := Programme(PublicTvgId(m.source, m.tvg), start, title, "");
    GuideTies(ms, docs, m, x);
    TiesAreListings(Build(ms, docs).programmes, x);
    TiesAreListings(Share(ms, docs, m.source), x);
    RewriteInjective(ms, m.source);
    RenamedListings(docs[m.source].programmes, Rewrite(ms, m.source), m.tvg, start, title);
  }

  /** Nothing else is listed. */
  lemma GuideListsNothingElse(ms: set<Mapping>, docs: map<int, Doc>, p: Programme)
    requires Stored(ms) && p in Build(ms, docs).programmes
    ensures exists m :: m in ms && m.source in docs && PublicTvgId(m.source, m.tvg) == p.channel
  {
    var order := SomeOrder(Sources(ms));
    var all := AllProgrammes(ms, docs, order);
    SortMembers(all, ProgrammeLe);
    assert p in multiset(Build(ms, docs).programmes);
    assert p in all;
    var s := ShareOf(ms, docs, order, p);
    RenamedChannels(docs[s].programmes, Rewrite(ms, s));
    RewriteInjective(ms, s);
    var raw :| raw in Rewrite(ms, s) && Rewrite(ms, s)[raw] == p.channel;
    assert Mapping(s, raw) in ms;
  }

  lemma {:induction false} ShareOf(ms: set<Mapping>, docs: map<int, Doc>, order: seq<int>, p: Programme) returns (s: int)
    requires p in AllProgrammes(ms, docs, order)
    ensures s in docs && p in Share(ms, docs, s)
  {
    var last, rest := order[|order| - 1], order[..|order| - 1];
    if p in Share(ms, docs, last) {
      s := last;
    } else {
      s := ShareOf(ms, docs, rest, p);
    }
  }

  /** Programmes are in order of channel, then start, then title. */
  lemma GuideIsInOrder(ms: set<Mapping>, docs: map<int, Doc>, i: nat, j: nat)
    requires Stored(ms) && i < j < |Build(ms, docs).programmes|
    ensures var p, q := Build(ms, docs).programmes[i], Build(ms, docs).programmes[j];
            StringLe(p.channel, q.channel)
            && (p.channel == q.channel ==> StringLe(p.start, q.start))
            && (p.channel == q.channel && p.start == q.start ==> StringLe(p.title, q.title))
  {
    ProgrammeOrder();
    StableSortIs(AllProgrammes(ms, docs, SomeOrder(Sources(ms))), ProgrammeLe);
    hide StableSort, AllProgrammes;
    var p, q := Build(ms, docs).programmes[i], Build(ms, docs).programmes[j];
    assert ProgrammeLe(p, q);
    StringLeTotal(p.channel, p.channel);
    StringLeTotal(p.start, p.start);
  }

  /** The channels of the guide are those of the relay's pairs that the documents have, with
      everything the documents say of them, under their public ids. */
  lemma GuideChannels(ms: set<Mapping>, docs: map<int, Doc>)
    requires Stored(ms)
    ensures forall m :: m in ms && m.source in docs && m.tvg in docs[m.source].channels ==>
              PublicTvgId(m.source, m.tvg) in Build(ms, docs).channels
              && Build(ms, docs).channels[PublicTvgId(m.source, m.tvg)]
                 == docs[m.source].channels[m.tvg].(id := PublicTvgId(m.source, m.tvg))
    ensures forall id :: id in Build(ms, docs).channels ==>
              exists m :: m in ms && m.source in docs && m.tvg in docs[m.source].channels && PublicTvgId(m.source, m.tvg) == id
  {
    AllChannelsIs(ms, docs);
    hide AllChannels, StableSort, AllProgrammes;
    forall m | m in ms && m.source in docs && m.tvg in docs[m.source].channels
      ensures PublicTvgId(m.source, m.tvg) in Build(ms, docs).channels
      ensures Build(ms, docs).channels[PublicTvgId(m.source, m.tvg)]
           == docs[m.source].channels[m.tvg].(id := PublicTvgId(m.source, m.tvg))
    {
      assert m in Found(ms, docs) && PublicId(m) == PublicTvgId(m.source, m.tvg);
    }
    forall id | id in Build(ms, docs).channels
      ensures exists m :: m in ms && m.source in docs && m.tvg in docs[m.source].channels && PublicTvgId(m.source, m.tvg) == id
    {
      var m :| m in Found(ms, docs) && PublicId(m) == id;
    }
  }
}
