/** An import that puts a channel behind the wrong proxy. */
module ImportProxies {
  import opened Seqs
  import opened Text
  import opened ChannelModel
  import opened ChannelStore
  import opened ChannelImport

  const UPPER := "\U{00C4}"
  const LOWER := "\U{00E4}"
  const SERVER := "http://h"

  /** Two channels, each behind its own proxy; the proxies' names differ in the case of a letter
      that the name index tells apart. */
  const LIST: seq<Entry> := [Entry("A", "a", UPPER), Entry("B", "b", LOWER)]

  const ALWAYS: nat -> bool := (n: nat) => true

  /** The server is http(s), the two names have one key, and ids do not repeat. */
  ghost predicate Suits(o: Outside) {
    IdsOk(o) && o.web(SERVER) && o.fold(UPPER) == o.fold(LOWER) && forall m, n :: o.newId(m) == o.newId(n) ==> m == n
  }

  lemma SomeSuit()
    ensures exists o :: Suits(o)
  {
    var o := Outside(u => u == SERVER, Itoa, x => if x == UPPER then LOWER else x);
    forall n ensures OutsideOk(o, n) {
      ItoaIsTrimmed(n);
    }
    forall m, n | o.newId(m) == o.newId(n) ensures m == n {
      ItoaInjective(m, n);
    }
    assert Suits(o);
  }

  lemma ItoaIsTrimmed(n: nat)
    ensures Itoa(n) != "" && Trim(Itoa(n)) == Itoa(n)
  {
    TrimmedIsFixed(Itoa(n));
  }

  function AsAsked(name: string): ProxyInput {
    ProxyInput(name, Some([Server("", SERVER)]), "", "")
  }

  /** The proxies of the list. */
  predicate TwoProxies(proxies: map<string, Proxy>) {
    proxies.Keys == {"p1", "p2"} && ProxyFrom(proxies["p1"], AsAsked(UPPER), None) && ProxyFrom(proxies["p2"], AsAsked(LOWER), None)
  }

  // ---------------------------------------------------------------- strings

  lemma Names()
    ensures Trim(UPPER) == UPPER && Trim(LOWER) == LOWER && Trim(SERVER) == SERVER
    ensures SameName(UPPER, UPPER) && SameName(LOWER, LOWER) && !SameName(UPPER, LOWER) && !SameName(LOWER, UPPER)
  {
    NotSpaces();
    NamesApart();
    hide Trim, LowerAscii;
    TrimmedIsFixed(UPPER);
    TrimmedIsFixed(LOWER);
    TrimmedIsFixed(SERVER);
  }

  lemma NotSpaces()
    ensures Trimmed(UPPER) && Trimmed(LOWER) && Trimmed(SERVER) && SameName(UPPER, UPPER) && SameName(LOWER, LOWER)
  {
    assert SERVER[0] == 'h' && SERVER[|SERVER| - 1] == 'h';
  }

  lemma NamesApart()
    ensures !SameName(UPPER, LOWER) && !SameName(LOWER, UPPER)
  {
    assert LowerAscii(UPPER)[0] == '\U{00C4}' && LowerAscii(LOWER)[0] == '\U{00E4}';
  }

  lemma OneLetter(c: char)
    requires 'A' <= c <= 'z'
    ensures Trim([c]) == [c] && ValidProxiedLink([c])
  {
    TrimmedIsFixed([c]);
  }

  lemma Links()
    ensures Trim("a") == "a" && Trim("b") == "b" && Trim("A") == "A" && Trim("B") == "B" && Trim("p1") == "p1" && Trim("") == ""
    ensures ValidProxiedLink("a") && ValidProxiedLink("b") && !SameName("A", "B") && "p1" != "" && "a" != "b"
  {
    OneLetter('a');
    OneLetter('b');
    OneLetter('A');
    OneLetter('B');
    PlainId("p1");
    assert LowerAscii("A")[0] == 'a' && LowerAscii("B")[0] == 'b' && "a"[0] != "b"[0];
    hide ValidProxiedLink;
  }

  lemma NoPolicyIsFixed()
    ensures ParsePolicy("", false) == Some(Fixed) && WantedPolicy("", None) == Some(Fixed)
  {
    assert LowerAscii(Trim("")) == "";
  }

  // ---------------------------------------------------------------- the proxies

  lemma AskedFits(o: Outside, name: string)
    requires Suits(o) && Trim(name) != ""
    ensures ProxyFits(o, AsAsked(name), None)
  {
    Names();
    NoPolicyIsFixed();
    hide Trim, ParsePolicy;
  }

  lemma ProxyNames(proxies: map<string, Proxy>)
    requires TwoProxies(proxies)
    ensures ProxyNamesUnique(proxies) && ByName(proxies, UPPER) == Some("p1") && ByName(proxies, LOWER) == Some("p2")
  {
    Names();
    hide Trim, SameName, ServersFrom, ParsePolicy, ByName;
    assert ProxyNamesUnique(proxies);
    NamedOnce(proxies, UPPER, "p1");
    NamedOnce(proxies, LOWER, "p2");
  }

  lemma PlainId(id: string)
    requires id == "p1" || id == "p2"
    ensures IdOk(id)
  {
    assert id[0] == 'p' && (id[1] == '1' || id[1] == '2');
    TrimmedIsFixed(id);
  }

  lemma IdsAreOk(proxies: map<string, Proxy>)
    requires TwoProxies(proxies)
    ensures forall p :: p in proxies ==> IdOk(p)
  {
    hide ProxyFrom, IdOk;
    forall p | p in proxies ensures IdOk(p) {
      PlainId(p);
    }
  }

  /** The first entry's proxy answers for both. */
  lemma BothGetTheFirst(proxies: map<string, Proxy>, o: Outside)
    requires TwoProxies(proxies) && Suits(o)
    ensures ProxyOf(proxies, o, LIST, 0) == Some("p1") && ProxyOf(proxies, o, LIST, 1) == Some("p1")
  {
    ProxyNames(proxies);
    Names();
    hide TwoProxies, ByName, Trim, SameName;
    CacheStep(proxies, o, LIST, 0);
    CacheStep(proxies, o, LIST, 1);
    EmptyCache(proxies, o, LIST);
  }

  /** What a link behind the first proxy resolves to. */
  lemma Resolved(proxies: map<string, Proxy>, link: string)
    requires TwoProxies(proxies)
    ensures Stable(proxies, Row("", link, "p1")) == Join(SERVER, Trim(link))
    ensures ResolvedForDedupe(proxies, Row("", link, "p1")) == [Join(SERVER, Trim(link))]
  {
    NoPolicyIsFixed();
    Names();
    hide Trim, ParsePolicy, Join, FixedIndex, HasServer;
    var p := proxies["p1"];
    assert p.servers[0].url == SERVER && |p.servers| == 1 && p.policy == Fixed;
  }

  lemma JoinsDiffer()
    ensures Join(SERVER, Trim("a")) != Join(SERVER, Trim("b")) && Trim(Join(SERVER, Trim("b"))) == Join(SERVER, Trim("b"))
  {
    Links();
    Names();
    assert TrimLeftSlash("a") == "a" && TrimLeftSlash("b") == "b";
    assert SERVER[|SERVER| - 1] == 'h';
    assert TrimRightSlash(SERVER) == SERVER;
    hide Trim;
    var a, b := SERVER + "/" + "a", SERVER + "/" + "b";
    assert a[|SERVER| + 1] == 'a' && b[|SERVER| + 1] == 'b';
    assert b[0] == 'h' && b[|b| - 1] == 'b';
    EndsAreNoSpaces();
    TrimmedIsFixed(b);
  }

  lemma EndsAreNoSpaces()
    ensures !IsSpace('h') && !IsSpace('b')
  {
  }

  // ---------------------------------------------------------------- the two entries

  /** A new channel of the list: one row, behind the first proxy. */
  predicate Behind(c: Channel, name: string, link: string) {
    c.name == name && |c.rows| == 1 && c.rows[0].url == link && c.rows[0].proxyId == "p1"
  }

  lemma OneRowResolves(proxies: map<string, Proxy>, link: string)
    requires TwoProxies(proxies)
    ensures NoRepeats(AllResolved(proxies, [Row("", link, "p1")])) && KnownProxies(proxies, [Row("", link, "p1")])
  {
    Resolved(proxies, link);
    assert "p1" in proxies;
    hide ResolvedForDedupe, TwoProxies, Join, Trim;
    var raw := [Row("", link, "p1")];
    assert raw[..0] == [];
    assert AllResolved(proxies, raw) == [] + ResolvedForDedupe(proxies, raw[0]);
  }

  lemma OneSource(link: string)
    requires Trim(link) == link
    ensures Sources([Row("", link, "p1")]) == [Row("", link, "p1")]
  {
    TrimmedIsFixed("p1");
    hide Trim;
  }

  lemma OneRowFits(o: Outside, proxies: map<string, Proxy>, name: string, link: string)
    requires TwoProxies(proxies) && Trim(link) == link && Trim(name) == name && ValidProxiedLink(link)
    ensures SpecFits(o, proxies, OneRowInput(name, link, "p1"), None)
  {
    NoPolicyIsFixed();
    OneRowResolves(proxies, link);
    OneSource(link);
    LinkFits(o, link);
    hide Trim, WantedPolicy, ValidProxiedLink, TwoProxies, AllResolved, Sources, KnownProxies, RowsFit;
    assert RawRows(OneRowInput(name, link, "p1"), None) == [Row("", link, "p1")];
  }

  lemma LinkFits(o: Outside, link: string)
    requires Trim(link) == link && ValidProxiedLink(link)
    ensures RowsFit(o, [Row("", link, "p1")])
  {
    PlainId("p1");
    hide ValidProxiedLink, Trim;
  }

  lemma OneRowBehind(c: Channel, name: string, link: string)
    requires ChannelFrom(c, OneRowInput(name, link, "p1"), None) && Trim(link) == link && Trim(name) == name
    ensures Behind(c, name, link)
  {
    Links();
    hide Trim, WantedPolicy, WantedId, IndexOfRow;
  }

  lemma FirstEntry(s: Rows, s': Rows, o: Outside, id: string, r: Option<Counts>)
    requires TwoProxies(s.proxies) && Suits(o) && s.channels == map[] && EntryDone(s, s', o, LIST, 0, id, true, r)
    ensures r.Some? && s'.proxies == s.proxies && s'.channels.Keys == {id}
    ensures Behind(s'.channels[id], "A", "a") && PrimaryAgrees(s', id)
  {
    BothGetTheFirst(s.proxies, o);
    Links();
    OneRowFits(o, s.proxies, "A", "a");
    hide TwoProxies, ProxyOf, Trim, SpecFits, ChannelFrom, PrimaryAgrees, Matches, SameName, Behind;
    assert !HasOwner(s, "a", "p1") && !IsNamed(s, "A");
    assert Creates(s, s', o, id, "A", "a", "p1", true, r);
    OneRowBehind(s'.channels[id], "A", "a");
  }

  lemma StoredUrl(s: Rows, id: string)
    requires TwoProxies(s.proxies) && id in s.channels && Behind(s.channels[id], "A", "a") && PrimaryAgrees(s, id)
    ensures s.channels[id].upstreamUrl == Join(SERVER, Trim("a"))
  {
    PrimaryIsTheRow(s.channels[id]);
    SameStable(s.proxies, s.channels[id].rows[0]);
    Resolved(s.proxies, "a");
    hide TwoProxies, Trim, Primary, Stable, Join, ResolvedForDedupe;
  }

  lemma OtherRows(c: Channel, there: string)
    requires Behind(c, "A", "a")
    ensures !HasRow(c.rows, "b", "p1") && !HasRow(c.rows, there, "")
  {
    assert "a"[0] != "b"[0] && |"p1"| == 2;
  }

  lemma NotAnOwner(s: Rows, id: string)
    requires TwoProxies(s.proxies) && id in s.channels && Behind(s.channels[id], "A", "a") && PrimaryAgrees(s, id)
    ensures !Matches(s, id, "b", "p1")
  {
    hide *;
    var there := Join(SERVER, Trim("b"));
    StoredUrl(s, id);
    OtherRows(s.channels[id], there);
    Resolved(s.proxies, "b");
    JoinsDiffer();
    Links();
    NoOwner(s, id, there);
  }

  lemma NoOwner(s: Rows, id: string, there: string)
    requires id in s.channels && Trim("b") == "b" && Trim(there) == there && "p1" != ""
    requires ResolvedForDedupe(s.proxies, Row("", "b", "p1")) == [there] && s.channels[id].upstreamUrl != there
    requires !HasRow(s.channels[id].rows, "b", "p1") && !HasRow(s.channels[id].rows, there, "")
    ensures !Matches(s, id, "b", "p1")
  {
    hide Trim, HasRow, ResolvedForDedupe;
  }

  /** The first channel has neither the second's link nor its name. */
  lemma NothingShared(s: Rows, id: string)
    requires TwoProxies(s.proxies) && s.channels.Keys == {id} && Behind(s.channels[id], "A", "a") && PrimaryAgrees(s, id)
    ensures !HasOwner(s, "b", "p1") && !IsNamed(s, "B")
  {
    NotAnOwner(s, id);
    Links();
    hide TwoProxies, Trim, SameName, PrimaryAgrees, Matches, ValidProxiedLink;
  }

  lemma PrimaryIsTheRow(c: Channel)
    requires |c.rows| == 1
    ensures Primary(c) == c.rows[0]
  {
    hide Trim, FixedIdOf;
  }

  lemma SameStable(proxies: map<string, Proxy>, r: Row)
    ensures Stable(proxies, r) == Stable(proxies, Row("", r.url, r.proxyId))
  {
  }

  lemma SecondEntry(s: Rows, s': Rows, o: Outside, first: string, id: string, r: Option<Counts>)
    requires TwoProxies(s.proxies) && Suits(o) && s.channels.Keys == {first} && id != first
    requires Behind(s.channels[first], "A", "a") && PrimaryAgrees(s, first) && EntryDone(s, s', o, LIST, 1, id, true, r)
    ensures r.Some? && id in s'.channels && Behind(s'.channels[id], "B", "b")
  {
    BothGetTheFirst(s.proxies, o);
    Links();
    OneRowFits(o, s.proxies, "B", "b");
    NothingShared(s, first);
    hide TwoProxies, ProxyOf, Trim, SpecFits, ChannelFrom, PrimaryAgrees, Matches, SameName, Behind, HasOwner, IsNamed;
    assert Creates(s, s', o, id, "B", "b", "p1", true, r);
    OneRowBehind(s'.channels[id], "B", "b");
  }

  /** The import does not fail, and its last table has the second channel behind the first proxy. */
  lemma BothImported(o: Outside, trace: seq<Rows>, ns: seq<nat>, lo: nat, hi: nat)
    requires Suits(o) && Traced(o, LIST, ALWAYS, trace, ns, lo, hi)
    requires trace[0].channels == map[] && TwoProxies(trace[0].proxies)
    ensures !FailsNext(o, LIST, ALWAYS, trace, ns)
    ensures |ns| == 2 ==> exists c :: c in trace[2].channels && Behind(trace[2].channels[c], "B", "b")
  {
    hide TwoProxies, EntryDone, Behind, PrimaryAgrees;
    if |ns| == 0 {
      if n: nat :| FailsNext(o, LIST, ALWAYS, trace, ns) && FailsWith(o, LIST, ALWAYS, trace, ns, n) {
        FirstEntry(trace[0], trace[0], o, o.newId(n), None);
      }
    } else {
      WentBoth(o, trace, ns);
      var c1 :| EntryDone(trace[0], trace[1], o, LIST, 0, o.newId(ns[0]), true, Some(c1));
      FirstEntry(trace[0], trace[1], o, o.newId(ns[0]), Some(c1));
      if |ns| == 1 {
        if n: nat :| FailsNext(o, LIST, ALWAYS, trace, ns) && FailsWith(o, LIST, ALWAYS, trace, ns, n) {
          SecondEntry(trace[1], trace[1], o, o.newId(ns[0]), o.newId(n), None);
        }
      } else {
        var c2 :| EntryDone(trace[1], trace[2], o, LIST, 1, o.newId(ns[1]), true, Some(c2));
        SecondEntry(trace[1], trace[2], o, o.newId(ns[0]), o.newId(ns[1]), Some(c2));
      }
    }
  }

  lemma WentBoth(o: Outside, trace: seq<Rows>, ns: seq<nat>)
    requires AllWent(o, LIST, ALWAYS, trace, ns) && ns != []
    ensures Went(o, LIST, 0, trace[0], trace[1], ns[0], true)
    ensures |ns| == 2 ==> Went(o, LIST, 1, trace[1], trace[2], ns[1], true)
  {
    hide Went;
    if |ns| == 2 {
      assert AllWent(o, LIST, ALWAYS, trace[..2], ns[..1]);
    }
  }

  /** Two proxies are created and the list is imported. The import succeeds, and channel "B",
      listed with the second proxy, is stored behind the first. */
  method SecondProxyIsTakenForTheFirst(o: Outside) returns (s: ChannelStore.Store, r: Option<Counts>)
    requires Suits(o)
    ensures fresh(s) && ByName(s.proxies, UPPER) == Some("p1") && ByName(s.proxies, LOWER) == Some("p2")
    ensures r.Some? && exists c :: c in s.channels && Behind(s.channels[c], "B", "b")
  {
    hide IdsOk, StoreInv, ProxyFrom, ProxyFits, Trim, ByName, Traced, FailsNext, Behind;
    Names();
    AskedFits(o, UPPER);
    AskedFits(o, LOWER);
    s := new ChannelStore.Store();
    var first := s.CreateProxy(o, "p1", AsAsked(UPPER), true);
    assert "p1"[1] != "p2"[1];
    var second := s.CreateProxy(o, "p2", AsAsked(LOWER), true);
    assert TwoProxies(s.proxies);
    ProxyNames(s.proxies);
    ghost var lo := s.ids;
    IdsAreOk(s.proxies);
    assert Ready(s);
    var updated; ghost var trace, ns;
    r, updated, trace, ns := ImportChannels(s, o, LIST, ALWAYS);
    BothImported(o, trace, ns, lo, s.ids);
  }
}
