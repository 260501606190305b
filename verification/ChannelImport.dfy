/** Importing a channel list (ImportChannels in internal/core/store/import.go), and why doing
    it twice is doing it once. */
module ChannelImport {
  import opened Seqs
  import opened Text
  import opened ChannelModel
  import opened ChannelStore

  type Rows = ChannelModel.Store

  datatype Entry = Entry(name: string, url: string, proxyName: string)

  datatype Counts = Counts(created: nat, reused: nat, added: nat, warnings: nat)

  function Total(c: Counts): nat {
    c.created + c.reused + c.added + c.warnings
  }

  // ---------------------------------------------------------------- proxies of entries

  /** The cache of resolveImportProxy after the first i entries: keyed by the folded name, so
      the first proxy found under a key serves all later names with that key. */
  ghost function CacheAfter(proxies: map<string, Proxy>, o: Outside, entries: seq<Entry>, i: nat): map<string, string>
    requires i <= |entries|
  {
    if i == 0 then map[]
    else
      var before := CacheAfter(proxies, o, entries, i - 1);
      var name := Trim(entries[i - 1].proxyName);
      if name == "" || o.fold(name) in before || ByName(proxies, name).None? then before
      else before[o.fold(name) := ByName(proxies, name).value]
  }

  /** The proxy of entry i, "" for none; nothing if its proxy is unknown. */
  ghost function ProxyOf(proxies: map<string, Proxy>, o: Outside, entries: seq<Entry>, i: nat): Option<string>
    requires i < |entries|
  {
    var name := Trim(entries[i].proxyName);
    var cache := CacheAfter(proxies, o, entries, i + 1);
    if name == "" then Some("") else if o.fold(name) in cache then Some(cache[o.fold(name)]) else None
  }

  lemma {:induction false} CachedAreProxies(proxies: map<string, Proxy>, o: Outside, entries: seq<Entry>, i: nat)
    requires i <= |entries|
    ensures forall k :: k in CacheAfter(proxies, o, entries, i) ==> CacheAfter(proxies, o, entries, i)[k] in proxies
  {
    hide SameName, Trim;
    if i > 0 {
      CachedAreProxies(proxies, o, entries, i - 1);
    }
  }

  /** Entry k asks for a known proxy, under the key of this name. */
  ghost predicate Caches(proxies: map<string, Proxy>, o: Outside, entries: seq<Entry>, k: nat, key: string)
    requires k < |entries|
  {
    var name := Trim(entries[k].proxyName);
    name != "" && o.fold(name) == key && ByName(proxies, name).Some?
  }

  /** The first of the first i entries that does. */
  ghost predicate CachesFirst(proxies: map<string, Proxy>, o: Outside, entries: seq<Entry>, k: nat, i: nat, key: string)
    requires i <= |entries|
  {
    k < i && Caches(proxies, o, entries, k, key) && forall j :: 0 <= j < k ==> !Caches(proxies, o, entries, j, key)
  }

  lemma {:induction false} CacheHoldsTheFirst(proxies: map<string, Proxy>, o: Outside, entries: seq<Entry>, i: nat, key: string)
    requires i <= |entries|
    ensures key !in CacheAfter(proxies, o, entries, i) ==> forall j :: 0 <= j < i ==> !Caches(proxies, o, entries, j, key)
    ensures key in CacheAfter(proxies, o, entries, i) ==>
              exists k: nat :: CachesFirst(proxies, o, entries, k, i, key)
                && ByName(proxies, Trim(entries[k].proxyName)) == Some(CacheAfter(proxies, o, entries, i)[key])
  {
    hide Trim, ByName;
    if i > 0 {
      CacheHoldsTheFirst(proxies, o, entries, i - 1, key);
      var before, after := CacheAfter(proxies, o, entries, i - 1), CacheAfter(proxies, o, entries, i);
      if key in before {
        var k: nat :| CachesFirst(proxies, o, entries, k, i - 1, key)
                 && ByName(proxies, Trim(entries[k].proxyName)) == Some(before[key]);
        assert after[key] == before[key] && CachesFirst(proxies, o, entries, k, i, key);
      } else if key in after {
        assert CachesFirst(proxies, o, entries, i - 1, i, key);
      }
    }
  }

  /** An entry that names a proxy gets the proxy of that name exactly when the first entry
      under the same key whose proxy is known names that same proxy. */
  lemma EntryGetsItsProxyExactly(proxies: map<string, Proxy>, o: Outside, entries: seq<Entry>, i: nat)
    requires i < |entries| && Trim(entries[i].proxyName) != ""
    ensures (ProxyOf(proxies, o, entries, i) == ByName(proxies, Trim(entries[i].proxyName)))
         == forall k: nat :: CachesFirst(proxies, o, entries, k, i + 1, o.fold(Trim(entries[i].proxyName)))
              ==> ByName(proxies, Trim(entries[k].proxyName)) == ByName(proxies, Trim(entries[i].proxyName))
  {
    hide Trim, ByName, CacheAfter, Caches;
    var key := o.fold(Trim(entries[i].proxyName));
    CacheHoldsTheFirst(proxies, o, entries, i + 1, key);
    if key in CacheAfter(proxies, o, entries, i + 1) {
      var k: nat :| CachesFirst(proxies, o, entries, k, i + 1, key)
               && ByName(proxies, Trim(entries[k].proxyName)) == Some(CacheAfter(proxies, o, entries, i + 1)[key]);
      OnlyOneFirst(proxies, o, entries, k, i + 1, key);
    } else {
      NotCached(proxies, o, entries, i);
      NoneFirst(proxies, o, entries, i + 1, key);
    }
  }

  lemma NotCached(proxies: map<string, Proxy>, o: Outside, entries: seq<Entry>, i: nat)
    requires i < |entries| && Trim(entries[i].proxyName) != ""
    requires !Caches(proxies, o, entries, i, o.fold(Trim(entries[i].proxyName)))
    ensures ByName(proxies, Trim(entries[i].proxyName)) == None
  {
    hide Trim, ByName;
  }

  lemma OnlyOneFirst(proxies: map<string, Proxy>, o: Outside, entries: seq<Entry>, k: nat, i: nat, key: string)
    requires i <= |entries| && CachesFirst(proxies, o, entries, k, i, key)
    ensures forall j: nat :: CachesFirst(proxies, o, entries, j, i, key) ==> j == k
  {
    hide Caches;
  }

  lemma NoneFirst(proxies: map<string, Proxy>, o: Outside, entries: seq<Entry>, i: nat, key: string)
    requires i <= |entries| && forall j :: 0 <= j < i ==> !Caches(proxies, o, entries, j, key)
    ensures forall j: nat :: !CachesFirst(proxies, o, entries, j, i, key)
  {
    hide Caches;
  }

  // ---------------------------------------------------------------- settled entries

  /** Importing the entry changes nothing: its URL has an owner, or the channel of its name has
      an equivalent row. */
  ghost predicate Settled(s: Rows, o: Outside, name: string, url: string, proxyId: string) {
    (exists c :: c in s.channels && Matches(s, c, url, proxyId))
    || (ValidLink(o, url, proxyId) && exists c :: NamedDuplicate(s, c, name, url, proxyId))
  }

  predicate NamedDuplicate(s: Rows, c: string, name: string, url: string, proxyId: string) {
    c in s.channels && SameName(s.channels[c].name, name) && Duplicate(s.proxies, s.channels[c].rows, Row("", url, proxyId))
  }

  ghost predicate SettledAt(s: Rows, o: Outside, entries: seq<Entry>, i: nat)
    requires i < |entries|
  {
    var p := ProxyOf(s.proxies, o, entries, i);
    p.Some? && Settled(s, o, Trim(entries[i].name), Trim(entries[i].url), p.value)
  }

  ghost predicate AllSettled(s: Rows, o: Outside, entries: seq<Entry>) {
    forall i :: 0 <= i < |entries| ==> SettledAt(s, o, entries, i)
  }

  /** Imports only add: channels keep their names and URLs and gain rows at the end. */
  predicate Grows(s: Rows, s': Rows) {
    s'.proxies == s.proxies && forall c :: c in s.channels ==> c in s'.channels && Extends(s.channels[c], s'.channels[c])
  }

  predicate Extends(c: Channel, c': Channel) {
    c' == c.(rows := c'.rows) && c.rows <= c'.rows
  }

  lemma GrowsOn(a: Rows, b: Rows, c: Rows)
    requires Grows(a, b) && Grows(b, c)
    ensures Grows(a, c)
  {
  }

  lemma OwnsStays(s: Rows, s': Rows, c: string, url: string, proxyId: string)
    requires Grows(s, s') && Owns(s, c, url, proxyId)
    ensures Owns(s', c, url, proxyId)
  {
    assert Extends(s.channels[c], s'.channels[c]);
    if HasRow(s.channels[c].rows, url, proxyId) {
      var i :| 0 <= i < |s.channels[c].rows| && s.channels[c].rows[i].url == url && s.channels[c].rows[i].proxyId == proxyId;
      assert s'.channels[c].rows[i] == s.channels[c].rows[i];
    }
  }

  /** What is found or a duplicate stays so as tables grow. */
  lemma SettledStays(s: Rows, s': Rows, o: Outside, name: string, url: string, proxyId: string)
    requires Grows(s, s') && Settled(s, o, name, url, proxyId)
    ensures Settled(s', o, name, url, proxyId)
  {
    hide ResolvedForDedupe, Owns, Clash, SameName, ValidLink, Trim;
    if c :| c in s.channels && Matches(s, c, url, proxyId) {
      if Owns(s, c, Trim(url), proxyId) {
        OwnsStays(s, s', c, Trim(url), proxyId);
      } else {
        var urls := ResolvedForDedupe(s.proxies, Row("", url, proxyId));
        var k :| 0 <= k < |urls| && Owns(s, c, Trim(urls[k]), "");
        OwnsStays(s, s', c, Trim(urls[k]), "");
      }
      assert Matches(s', c, url, proxyId);
    } else {
      var c :| NamedDuplicate(s, c, name, url, proxyId);
      var i :| 0 <= i < |s.channels[c].rows| && Clash(s.proxies, s.channels[c].rows[i], Row("", url, proxyId));
      assert s'.channels[c].rows[i] == s.channels[c].rows[i];
      assert NamedDuplicate(s', c, name, url, proxyId);
    }
  }

  lemma SettledUpToStays(s: Rows, s': Rows, o: Outside, entries: seq<Entry>, n: nat)
    requires Grows(s, s') && n <= |entries| && forall i :: 0 <= i < n ==> SettledAt(s, o, entries, i)
    ensures forall i :: 0 <= i < n ==> SettledAt(s', o, entries, i)
  {
    hide Settled, ProxyOf, Trim;
    forall i | 0 <= i < n ensures SettledAt(s', o, entries, i) {
      assert SettledAt(s, o, entries, i);
      SettledStays(s, s', o, Trim(entries[i].name), Trim(entries[i].url), ProxyOf(s.proxies, o, entries, i).value);
    }
  }

  // ---------------------------------------------------------------- what one entry does

  ghost predicate HasOwner(s: Rows, url: string, proxyId: string) {
    exists c :: c in s.channels && Matches(s, c, url, proxyId)
  }

  ghost predicate IsNamed(s: Rows, name: string) {
    exists c :: NamedBy(s, c, name)
  }

  predicate NamedBy(s: Rows, c: string, name: string) {
    c in s.channels && SameName(s.channels[c].name, name)
  }

  function OneRowInput(name: string, url: string, proxyId: string): Input {
    Input(name, Some([Row("", url, proxyId)]), "", "", "")
  }

  /** Found: the channel of that name is the wanted one, any other is a warning. */
  ghost predicate Reuses(s: Rows, o: Outside, name: string, url: string, proxyId: string, r: Option<Counts>) {
    exists c :: c in s.channels && Matches(s, c, url, proxyId)
      && r == Some(if o.fold(Trim(s.channels[c].name)) == o.fold(name) then Counts(0, 1, 0, 0) else Counts(0, 0, 0, 1))
  }

  /** The name is known: the row is appended unless an equivalent one is there. */
  ghost predicate Appends(s: Rows, s': Rows, o: Outside, c: string, url: string, proxyId: string, r: Option<Counts>)
    requires c in s.channels
  {
    if !ValidLink(o, url, proxyId) then s' == s && r == None
    else if Duplicate(s.proxies, s.channels[c].rows, Row("", url, proxyId)) then s' == s && r == Some(Counts(0, 1, 0, 0))
    else
      r == Some(Counts(0, 0, 1, 0))
      && exists x :: IdOk(x) && s' == s.(channels := WithRow(s.channels, c, Row(x, url, proxyId)))
  }

  /** The name is new: a channel with the one row, if that is valid and commits. */
  ghost predicate Creates(s: Rows, s': Rows, o: Outside, id: string, name: string, url: string, proxyId: string, commits: bool, r: Option<Counts>) {
    if Trim(name) != "" && id !in s.channels && SpecFits(o, s.proxies, OneRowInput(name, url, proxyId), None) && commits
    then
      r == Some(Counts(1, 0, 0, 0)) && id in s'.channels && s' == s.(channels := s.channels[id := s'.channels[id]])
      && ChannelFrom(s'.channels[id], OneRowInput(name, url, proxyId), None) && PrimaryAgrees(s', id)
    else s' == s && r == None
  }

  /** One entry with its proxy; none when the import has to fail. */
  ghost predicate EntryStep(s: Rows, s': Rows, o: Outside, id: string, name: string, url: string, proxyId: string, commits: bool, r: Option<Counts>) {
    if HasOwner(s, url, proxyId) then s' == s && Reuses(s, o, name, url, proxyId, r)
    else if IsNamed(s, name) then exists c :: NamedBy(s, c, name) && Appends(s, s', o, c, url, proxyId, r)
    else Creates(s, s', o, id, name, url, proxyId, commits, r)
  }

  /** Entry k takes the tables from s to s'. */
  ghost predicate EntryDone(s: Rows, s': Rows, o: Outside, entries: seq<Entry>, k: nat, id: string, commits: bool, r: Option<Counts>)
    requires k < |entries|
  {
    var p := ProxyOf(s.proxies, o, entries, k);
    if p.None? then s' == s && r == None
    else EntryStep(s, s', o, id, Trim(entries[k].name), Trim(entries[k].url), p.value, commits, r)
  }

  ghost predicate Went(o: Outside, entries: seq<Entry>, k: nat, s: Rows, s': Rows, n: nat, commits: bool)
    requires k < |entries|
  {
    exists c :: EntryDone(s, s', o, entries, k, o.newId(n), commits, Some(c))
  }

  /** The tables after each of |ns| entries; the k-th entry was given the ns[k]-th id. */
  ghost predicate AllWent(o: Outside, entries: seq<Entry>, commits: nat -> bool, trace: seq<Rows>, ns: seq<nat>)
    decreases |ns|
  {
    |trace| == |ns| + 1 && |ns| <= |entries|
    && (ns != [] ==>
          var k := |ns| - 1;
          Went(o, entries, k, trace[k], trace[k + 1], ns[k], commits(k)) && AllWent(o, entries, commits, trace[..k + 1], ns[..k]))
  }

  /** Ids are handed out in order, here those from the lo-th up to the hi-th. */
  predicate Ascending(ns: seq<nat>, lo: nat, hi: nat) {
    lo <= hi && (forall k :: 0 <= k < |ns| ==> lo <= ns[k] < hi) && forall j, k :: 0 <= j < k < |ns| ==> ns[j] < ns[k]
  }

  ghost predicate Traced(o: Outside, entries: seq<Entry>, commits: nat -> bool, trace: seq<Rows>, ns: seq<nat>, lo: nat, hi: nat) {
    AllWent(o, entries, commits, trace, ns) && Ascending(ns, lo, hi)
  }

  /** The import failed at the entry after the last one done. */
  ghost predicate FailsNext(o: Outside, entries: seq<Entry>, commits: nat -> bool, trace: seq<Rows>, ns: seq<nat>) {
    |ns| < |entries| && |trace| == |ns| + 1 && exists n: nat :: FailsWith(o, entries, commits, trace, ns, n)
  }

  ghost predicate FailsWith(o: Outside, entries: seq<Entry>, commits: nat -> bool, trace: seq<Rows>, ns: seq<nat>, n: nat)
    requires |ns| < |entries| && |trace| == |ns| + 1
  {
    (forall k :: 0 <= k < |ns| ==> ns[k] < n)
    && EntryDone(trace[|ns|], trace[|ns|], o, entries, |ns|, o.newId(n), commits(|ns|), None)
  }

  lemma TraceGrows(o: Outside, entries: seq<Entry>, commits: nat -> bool, trace: seq<Rows>, ns: seq<nat>, lo: nat, hi: nat,
                   s': Rows, n: nat, c: Counts, hi': nat)
    requires Traced(o, entries, commits, trace, ns, lo, hi) && |ns| < |entries| && hi <= n < hi'
    requires EntryDone(trace[|ns|], s', o, entries, |ns|, o.newId(n), commits(|ns|), Some(c))
    ensures Traced(o, entries, commits, trace + [s'], ns + [n], lo, hi')
  {
    assert Went(o, entries, |ns|, trace[|ns|], s', n, commits(|ns|));
    hide Went, EntryDone, Ascending;
    AscendingSnoc(ns, lo, hi, n, hi');
    assert (trace + [s'])[..|ns| + 1] == trace && (ns + [n])[..|ns|] == ns;
  }

  lemma AscendingSnoc(ns: seq<nat>, lo: nat, hi: nat, n: nat, hi': nat)
    requires Ascending(ns, lo, hi) && hi <= n < hi'
    ensures Ascending(ns + [n], lo, hi')
  {
  }

  // ---------------------------------------------------------------- the three cases

  /** The tables as the unique name indexes and the other writers leave them. */
  predicate ReadyRows(s: Rows) {
    StoreInv(s) && NamesUnique(s.channels) && ProxyNamesUnique(s.proxies)
    && forall p :: p in s.proxies ==> IdOk(p)
  }

  ghost predicate Ready(s: ChannelStore.Store)
    reads s
  {
    ReadyRows(s.Abs())
  }

  lemma OwnRowMatches(s: Rows, c: string, url: string, proxyId: string)
    requires c in s.channels && HasRow(s.channels[c].rows, Trim(url), proxyId)
    ensures Matches(s, c, url, proxyId)
  {
    hide ResolvedForDedupe, Trim, HasRow;
  }

  lemma RowAdded(s: Rows, c: string, r: Row)
    requires c in s.channels
    ensures var s' := s.(channels := WithRow(s.channels, c, r));
            Grows(s, s') && HasRow(s'.channels[c].rows, r.url, r.proxyId)
            && forall d :: d in s.channels ==> s'.channels[d].name == s.channels[d].name
  {
    var s' := s.(channels := WithRow(s.channels, c, r));
    assert s'.channels[c].rows[|s.channels[c].rows|] == r;
  }

  function AddedAs(added: Option<bool>): Option<Counts> {
    if added.None? then None else Some(if added.value then Counts(0, 0, 1, 0) else Counts(0, 1, 0, 0))
  }

  /** The name is known: a row is appended, or an equivalent one is there. */
  method AddToChannel(s: ChannelStore.Store, o: Outside, c: string, name: string, url: string, proxyId: string)
    returns (added: Option<bool>)
    requires Ready(s) && IdsOk(o) && c in s.channels && SameName(s.channels[c].name, name)
    requires (proxyId == "" || proxyId in s.proxies) && Trim(url) == url && Trim(proxyId) == proxyId
    modifies s`channels, s`ids
    ensures Ready(s) && Grows(old(s.Abs()), s.Abs()) && old(s.ids) <= s.ids
    ensures added.Some? ==> Settled(s.Abs(), o, name, url, proxyId)
    ensures (added.Some? && added.value) || s.channels == old(s.channels)
    ensures Appends(old(s.Abs()), s.Abs(), o, c, url, proxyId, AddedAs(added))
    ensures Settled(old(s.Abs()), o, name, url, proxyId) ==>
              (added.Some? && !added.value) || exists d :: d in old(s.channels) && Matches(old(s.Abs()), d, url, proxyId)
  {
    hide StoreInv, Trim, SameName, Matches, Duplicate, ValidLink, IdsOk, HasRow, Settled, NamesUnique, ProxyNamesUnique;
    SettledByName(s.Abs(), o, c, name, url, proxyId);
    added := s.Append(o, c, url, proxyId);
    if added.Some? && added.value {
      ghost var id :| IdOk(id) && s.channels == WithRow(old(s.channels), c, Row(id, url, proxyId));
      RowAdded(old(s.Abs()), c, Row(id, url, proxyId));
      OwnRowMatches(s.Abs(), c, url, proxyId);
      FoundIsSettled(s.Abs(), o, c, name, url, proxyId);
      SameNames(old(s.channels), s.channels);
    } else if added.Some? {
      DuplicateIsSettled(s.Abs(), o, c, name, url, proxyId);
    }
  }

  lemma SameNames(before: map<string, Channel>, after: map<string, Channel>)
    requires NamesUnique(before) && after.Keys == before.Keys && forall c :: c in before ==> after[c].name == before[c].name
    ensures NamesUnique(after)
  {
    hide SameName;
  }

  lemma DuplicateIsSettled(s: Rows, o: Outside, c: string, name: string, url: string, proxyId: string)
    requires ValidLink(o, url, proxyId) && NamedDuplicate(s, c, name, url, proxyId)
    ensures Settled(s, o, name, url, proxyId)
  {
  }

  /** A settled entry without an owner duplicates a row of the channel of its name. */
  lemma SettledByName(s: Rows, o: Outside, c: string, name: string, url: string, proxyId: string)
    requires NamesUnique(s.channels) && c in s.channels && SameName(s.channels[c].name, name)
    ensures Settled(s, o, name, url, proxyId) ==>
              (exists d :: d in s.channels && Matches(s, d, url, proxyId))
              || (ValidLink(o, url, proxyId) && Duplicate(s.proxies, s.channels[c].rows, Row("", url, proxyId)))
  {
    hide LowerAscii, Matches, ValidLink, Duplicate;
    if Settled(s, o, name, url, proxyId) && !exists d :: d in s.channels && Matches(s, d, url, proxyId) {
      var d :| NamedDuplicate(s, d, name, url, proxyId);
      assert SameName(s.channels[d].name, s.channels[c].name);
    }
  }

  /** The name is new: a channel with the one row. */
  method AddChannel(s: ChannelStore.Store, o: Outside, id: string, name: string, url: string, proxyId: string, commits: bool)
    returns (ok: bool)
    requires Ready(s) && IdsOk(o) && forall c :: c in s.channels ==> !SameName(s.channels[c].name, name)
    requires Trim(url) == url && Trim(proxyId) == proxyId && Trim(name) == name
    modifies s
    ensures Ready(s) && Grows(old(s.Abs()), s.Abs()) && old(s.ids) <= s.ids
    ensures ok ==> Settled(s.Abs(), o, name, url, proxyId)
    ensures !ok ==> s.channels == old(s.channels)
    ensures Creates(old(s.Abs()), s.Abs(), o, id, name, url, proxyId, commits, if ok then Some(Counts(1, 0, 0, 0)) else None)
  {
    hide StoreInv, Trim, LowerAscii, Matches, ValidLink, IdsOk, HasRow, IdOk, NamedDuplicate, SpecFits, WantedPolicy, WantedId, Picked, PrimaryAgrees;
    ok := s.InsertChannel(o, id, OneRowInput(name, url, proxyId), commits);
    if ok {
      assert RowsFrom(s.channels[id].rows, [Row("", url, proxyId)]);
      OneRow(s.channels[id].rows, url, proxyId);
      OwnRowMatches(s.Abs(), id, url, proxyId);
      StoredAgrees(s.Abs(), id);
    }
  }

  lemma StoredAgrees(s: Rows, c: string)
    requires StoreInv(s) && c in s.channels
    ensures PrimaryAgrees(s, c)
  {
  }

  lemma OneRow(rows: seq<Row>, url: string, proxyId: string)
    requires |rows| == 1 && RowsFrom(rows, [Row("", url, proxyId)])
    ensures HasRow(rows, Trim(url), Trim(proxyId))
  {
    assert rows[0].url == Trim(url) && rows[0].proxyId == Trim(proxyId);
  }

  /** One entry once its proxy is known; none if the import has to fail. */
  method ImportOne(s: ChannelStore.Store, o: Outside, id: string, e: Entry, proxyId: string, commits: bool)
    returns (r: Option<Counts>, updated: set<string>)
    requires Ready(s) && IdsOk(o) && (proxyId == "" || proxyId in s.proxies)
    modifies s
    ensures Ready(s) && Grows(old(s.Abs()), s.Abs()) && old(s.ids) <= s.ids
    ensures EntryStep(old(s.Abs()), s.Abs(), o, id, Trim(e.name), Trim(e.url), proxyId, commits, r)
    ensures r.Some? ==> Total(r.value) == 1 && Settled(s.Abs(), o, Trim(e.name), Trim(e.url), proxyId)
    ensures r.Some? && r.value.created == 0 && r.value.added == 0 ==> s.channels == old(s.channels)
    ensures Settled(old(s.Abs()), o, Trim(e.name), Trim(e.url), proxyId) ==>
              r.Some? && r.value.created == 0 && r.value.added == 0 && updated == {} && s.channels == old(s.channels)
  {
    hide Settled, Matches, StoreInv, SameName, Trim, IdsOk, NamesUnique, ProxyNamesUnique, ValidLink, Appends, Creates;
    ghost var was := s.Abs();
    var name, url := Trim(e.name), Trim(e.url);
    TrimTwice(e.name);
    TrimTwice(e.url);
    TrimmedId(s.proxies, proxyId);
    updated := {};
    var owner := s.FindImportChannel(url, proxyId);
    if owner.Some? {
      FoundIsSettled(s.Abs(), o, owner.value, name, url, proxyId);
      r := Some(if o.fold(Trim(s.channels[owner.value].name)) == o.fold(name) then Counts(0, 1, 0, 0) else Counts(0, 0, 0, 1));
      return;
    }
    var existing := s.FindByName(name);
    if existing.Some? {
      var added := AddToChannel(s, o, existing.value, name, url, proxyId);
      assert NamedBy(was, existing.value, name);
      r := AddedAs(added);
      updated := if added.Some? && added.value then {existing.value} else {};
      return;
    }
    NamelessUnsettled(s.Abs(), o, name, url, proxyId);
    var ok := AddChannel(s, o, id, name, url, proxyId, commits);
    r := if ok then Some(Counts(1, 0, 0, 0)) else None;
  }

  lemma TrimmedId(proxies: map<string, Proxy>, proxyId: string)
    requires (forall p :: p in proxies ==> IdOk(p)) && (proxyId == "" || proxyId in proxies)
    ensures Trim(proxyId) == proxyId
  {
  }

  lemma FoundIsSettled(s: Rows, o: Outside, c: string, name: string, url: string, proxyId: string)
    requires c in s.channels && Matches(s, c, url, proxyId)
    ensures Settled(s, o, name, url, proxyId)
  {
  }

  lemma NamelessUnsettled(s: Rows, o: Outside, name: string, url: string, proxyId: string)
    requires forall c :: c in s.channels ==> !Matches(s, c, url, proxyId)
    requires forall c :: c in s.channels ==> !SameName(s.channels[c].name, name)
    ensures !Settled(s, o, name, url, proxyId)
  {
    hide Matches, SameName;
  }

  // ---------------------------------------------------------------- the whole list

  /** What one more entry does to the cache. */
  lemma CacheStep(proxies: map<string, Proxy>, o: Outside, entries: seq<Entry>, i: nat)
    requires i < |entries|
    ensures var cache := CacheAfter(proxies, o, entries, i); var name := Trim(entries[i].proxyName);
            if name == "" then ProxyOf(proxies, o, entries, i) == Some("") && CacheAfter(proxies, o, entries, i + 1) == cache
            else if o.fold(name) in cache then
              ProxyOf(proxies, o, entries, i) == Some(cache[o.fold(name)]) && CacheAfter(proxies, o, entries, i + 1) == cache
              && cache[o.fold(name)] in proxies
            else if ByName(proxies, name).None? then ProxyOf(proxies, o, entries, i) == None
            else
              ProxyOf(proxies, o, entries, i) == ByName(proxies, name)
              && CacheAfter(proxies, o, entries, i + 1) == cache[o.fold(name) := ByName(proxies, name).value]
  {
    CachedAreProxies(proxies, o, entries, i);
    hide Trim, ByName;
  }

  lemma ByNameIsProxy(proxies: map<string, Proxy>, name: string)
    ensures ByName(proxies, name).Some? ==> ByName(proxies, name).value in proxies
  {
    hide Trim, SameName;
  }

  /** resolveImportProxy with its cache. */
  method ResolveImportProxy(s: ChannelStore.Store, o: Outside, entries: seq<Entry>, i: nat, cache: map<string, string>)
    returns (proxyId: Option<string>, cache': map<string, string>)
    requires i < |entries| && cache == CacheAfter(s.proxies, o, entries, i) && ProxyNamesUnique(s.proxies)
    ensures proxyId == ProxyOf(s.proxies, o, entries, i)
    ensures proxyId.Some? ==> cache' == CacheAfter(s.proxies, o, entries, i + 1) && (proxyId.value == "" || proxyId.value in s.proxies)
  {
    CacheStep(s.proxies, o, entries, i);
    hide Trim, ByName, ProxyNamesUnique, CacheAfter, ProxyOf;
    var name := Trim(entries[i].proxyName);
    cache' := cache;
    if name == "" {
      proxyId := Some("");
    } else if o.fold(name) in cache {
      proxyId := Some(cache[o.fold(name)]);
    } else {
      proxyId := s.FindProxyByName(name);
      ByNameIsProxy(s.proxies, name);
      if proxyId.Some? {
        cache' := cache[o.fold(name) := proxyId.value];
      }
    }
  }

  /** Entry i, its proxy resolved first. */
  method ImportNext(s: ChannelStore.Store, o: Outside, entries: seq<Entry>, i: nat, cache: map<string, string>, commits: bool)
    returns (r: Option<Counts>, updated: set<string>, cache': map<string, string>, ghost n: nat)
    requires Ready(s) && IdsOk(o) && i < |entries| && cache == CacheAfter(s.proxies, o, entries, i)
    modifies s
    ensures Ready(s) && Grows(old(s.Abs()), s.Abs())
    ensures EntryDone(old(s.Abs()), s.Abs(), o, entries, i, o.newId(n), commits, r)
    ensures old(s.ids) <= n && old(s.ids) <= s.ids && (r.Some? ==> n < s.ids)
    ensures r.Some? ==> Total(r.value) == 1 && cache' == CacheAfter(s.proxies, o, entries, i + 1) && SettledAt(s.Abs(), o, entries, i)
    ensures SettledAt(old(s.Abs()), o, entries, i) ==>
              r.Some? && r.value.created == 0 && r.value.added == 0 && updated == {} && s.channels == old(s.channels)
  {
    hide StoreInv, Settled, ProxyOf, CacheAfter, Trim, IdsOk, NamesUnique, ProxyNamesUnique, IdOk, EntryStep;
    ghost var now := s.Abs();
    var proxyId;
    proxyId, cache' := ResolveImportProxy(s, o, entries, i, cache);
    r, updated, n := None, {}, s.ids;
    if proxyId.Some? {
      SettledWhen(now, o, entries, i, proxyId.value);
      var id := s.NewId(o);
      r, updated := ImportOne(s, o, id, entries[i], proxyId.value, commits);
      SettledWhen(s.Abs(), o, entries, i, proxyId.value);
    } else {
      GrowsNowhere(now);
    }
  }

  lemma SettledWhen(s: Rows, o: Outside, entries: seq<Entry>, i: nat, proxyId: string)
    requires i < |entries| && ProxyOf(s.proxies, o, entries, i) == Some(proxyId)
    ensures SettledAt(s, o, entries, i) == Settled(s, o, Trim(entries[i].name), Trim(entries[i].url), proxyId)
  {
    hide ProxyOf, Settled, Trim;
  }

  lemma GrowsNowhere(s: Rows)
    ensures Grows(s, s)
  {
  }

  /** The loop over the entries, up to the first that makes the import fail. */
  method ImportAll(s: ChannelStore.Store, o: Outside, entries: seq<Entry>, commits: nat -> bool)
    returns (r: Option<Counts>, updated: set<string>, ghost trace: seq<Rows>, ghost ns: seq<nat>)
    requires Ready(s) && IdsOk(o)
    modifies s
    ensures Ready(s) && Grows(old(s.Abs()), s.Abs())
    ensures Traced(o, entries, commits, trace, ns, old(s.ids), s.ids) && trace[0] == old(s.Abs())
    ensures r.Some? ==> |ns| == |entries| && trace[|ns|] == s.Abs()
    ensures r.None? ==> FailsNext(o, entries, commits, trace, ns)
    ensures r.Some? ==> Total(r.value) == |entries| && AllSettled(s.Abs(), o, entries)
    ensures AllSettled(old(s.Abs()), o, entries) ==>
              r.Some? && r.value.created == 0 && r.value.added == 0 && updated == {} && s.channels == old(s.channels)
  {
    hide ReadyRows, SettledAt, CacheAfter, Grows, IdsOk, EntryDone, Traced, FailsNext;
    ghost var was, lo := s.Abs(), s.ids;
    var counts, cache, i: nat, ok := Counts(0, 0, 0, 0), map[], 0, true;
    updated, trace, ns := {}, [was], [];
    EmptyCache(s.proxies, o, entries);
    EmptyTrace(o, entries, commits, was, lo);
    GrowsNowhere(was);
    while i < |entries| && ok
      invariant i <= |entries| && Ready(s) && Grows(was, s.Abs()) && s.proxies == was.proxies
      invariant ok ==> cache == CacheAfter(s.proxies, o, entries, i) && Total(counts) == i
      invariant ok ==> forall k :: 0 <= k < i ==> SettledAt(s.Abs(), o, entries, k)
      invariant AllSettled(was, o, entries) ==> ok && Calm(s.channels, was.channels, counts, updated)
      invariant |ns| == i && |trace| == i + 1 && trace[0] == was && Traced(o, entries, commits, trace, ns, lo, s.ids)
      invariant if ok then trace[i] == s.Abs() else FailsNext(o, entries, commits, trace, ns)
      decreases |entries| - i, ok
    {
      ghost var now, hi := s.Abs(), s.ids;
      var one, touched; ghost var n;
      one, touched, cache, n := ImportNext(s, o, entries, i, cache, commits(i));
      SameProxies(now, s.Abs());
      GrowsOn(was, now, s.Abs());
      ok := one.Some?;
      if ok {
        SettledUpToStays(now, s.Abs(), o, entries, i);
        TraceGrows(o, entries, commits, trace, ns, lo, hi, s.Abs(), n, one.value, s.ids);
        trace, ns := trace + [s.Abs()], ns + [n];
        counts := Plus(counts, one.value);
        updated := updated + touched;
        i := i + 1;
      } else {
        TraceFails(o, entries, commits, trace, ns, lo, hi, s.Abs(), n, s.ids);
      }
    }
    r := if ok then Some(counts) else None;
  }

  lemma EmptyTrace(o: Outside, entries: seq<Entry>, commits: nat -> bool, s: Rows, lo: nat)
    ensures Traced(o, entries, commits, [s], [], lo, lo)
  {
  }

  /** A failed entry leaves the tables as they were. */
  lemma TraceFails(o: Outside, entries: seq<Entry>, commits: nat -> bool, trace: seq<Rows>, ns: seq<nat>, lo: nat, hi: nat,
                   s': Rows, n: nat, hi': nat)
    requires Traced(o, entries, commits, trace, ns, lo, hi) && |ns| < |entries| && hi <= n && hi <= hi'
    requires EntryDone(trace[|ns|], s', o, entries, |ns|, o.newId(n), commits(|ns|), None)
    ensures FailsNext(o, entries, commits, trace, ns) && Traced(o, entries, commits, trace, ns, lo, hi')
  {
    hide ProxyOf, Went;
    assert s' == trace[|ns|];
    hide EntryDone, AllWent;
    assert FailsWith(o, entries, commits, trace, ns, n);
  }

  predicate Calm(now: map<string, Channel>, was: map<string, Channel>, c: Counts, updated: set<string>) {
    now == was && c.created == 0 && c.added == 0 && updated == {}
  }

  /** ImportChannels: all entries in one transaction. Afterwards every entry is settled, and
      when every entry was settled before, nothing is created, added or changed. */
  method ImportChannels(s: ChannelStore.Store, o: Outside, entries: seq<Entry>, commits: nat -> bool)
    returns (r: Option<Counts>, updated: set<string>, ghost trace: seq<Rows>, ghost ns: seq<nat>)
    requires Ready(s) && IdsOk(o)
    modifies s
    ensures Ready(s) && s.proxies == old(s.proxies)
    ensures Traced(o, entries, commits, trace, ns, old(s.ids), s.ids) && trace[0] == old(s.Abs())
    ensures r.Some? ==> |ns| == |entries| && trace[|ns|] == s.Abs()
    ensures r.None? ==> FailsNext(o, entries, commits, trace, ns) && s.channels == old(s.channels)
    ensures r.Some? ==> Total(r.value) == |entries| && Grows(old(s.Abs()), s.Abs()) && AllSettled(s.Abs(), o, entries)
    ensures AllSettled(old(s.Abs()), o, entries) ==>
              r.Some? && r.value.created == 0 && r.value.added == 0 && updated == {} && s.channels == old(s.channels)
  {
    hide ReadyRows, AllSettled, Grows, IdsOk, Traced, FailsNext;
    var before := s.channels;
    r, updated, trace, ns := ImportAll(s, o, entries, commits);
    SameProxies(old(s.Abs()), s.Abs());
    if r.None? {
      s.channels := before;
      updated := {};
    }
  }

  function Plus(a: Counts, b: Counts): (c: Counts)
    ensures Total(c) == Total(a) + Total(b)
  {
    Counts(a.created + b.created, a.reused + b.reused, a.added + b.added, a.warnings + b.warnings)
  }

  lemma SameProxies(a: Rows, b: Rows)
    requires Grows(a, b)
    ensures b.proxies == a.proxies
  {
  }

  lemma EmptyCache(proxies: map<string, Proxy>, o: Outside, entries: seq<Entry>)
    ensures CacheAfter(proxies, o, entries, 0) == map[]
  {
  }

  /** Importing a list twice is importing it once. */
  method ImportTwice(s: ChannelStore.Store, o: Outside, entries: seq<Entry>, commits: nat -> bool, again: nat -> bool)
    returns (first: Option<Counts>, second: Option<Counts>, ghost between: map<string, Channel>)
    requires Ready(s) && IdsOk(o)
    modifies s
    ensures first.Some? ==>
              second.Some? && second.value.created == 0 && second.value.added == 0
              && second.value.reused + second.value.warnings == |entries|
              && s.channels == between
  {
    hide ReadyRows, AllSettled, IdsOk, Traced, FailsNext;
    var updated; ghost var trace, ns;
    first, updated, trace, ns := ImportChannels(s, o, entries, commits);
    between := s.channels;
    second, updated, trace, ns := ImportChannels(s, o, entries, again);
  }
}
