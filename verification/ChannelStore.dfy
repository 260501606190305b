/** Writing channels and proxies (internal/core/store/upstreams.go, internal/core/store/proxies.go,
    internal/core/store/store.go, internal/core/store/import.go). */
module ChannelStore {
  import opened Seqs
  import opened Text
  import opened ChannelModel

  /** No rows means none were given: keep the present ones, or make one from the URL. */
  datatype Input = Input(name: string, rows: Option<seq<Row>>, url: string, policy: string, fixedId: string)

  datatype Spec = Spec(rows: seq<Row>, policy: Policy, fixedId: string, primaryUrl: string)

  datatype ProxyInput = ProxyInput(name: string, servers: Option<seq<Server>>, policy: string, fixedId: string)

  /** What lies outside: which URLs are http(s) with a host, fresh ids, letter case. */
  datatype Outside = Outside(web: string -> bool, newId: nat -> string, fold: string -> string)

  predicate OutsideOk(o: Outside, n: nat) {
    o.newId(n) != "" && Trim(o.newId(n)) == o.newId(n)
  }

  ghost predicate IdsOk(o: Outside) {
    forall n :: OutsideOk(o, n)
  }

  function ParsePolicy(raw: string, allowFallback: bool): Option<Policy> {
    var p := LowerAscii(Trim(raw));
    if p == "" || p == "fixed" then Some(Fixed)
    else if p == "random" then Some(Random)
    else if p == "failover" || (p == "fallback" && allowFallback) then Some(Failover)
    else None
  }

  predicate Marked(raw: string, i: nat) {
    i + 3 <= |raw| && raw[i..i + 3] == "://"
  }

  /** ValidProxiedLink. */
  predicate ValidProxiedLink(raw: string) {
    raw != "" && (forall i :: 0 <= i < |raw| ==> !IsSpace(raw[i]) && raw[i] != '\0' && !Marked(raw, i))
  }

  predicate ValidLink(o: Outside, url: string, proxyId: string) {
    if proxyId == "" then o.web(url) else ValidProxiedLink(url)
  }

  function AllResolved(proxies: map<string, Proxy>, rows: seq<Row>): seq<string> {
    if rows == [] then [] else AllResolved(proxies, rows[..|rows| - 1]) + ResolvedForDedupe(proxies, rows[|rows| - 1])
  }

  predicate SameSource(a: Row, b: Row) {
    a.url == b.url && a.proxyId == b.proxyId
  }

  function AsChannel(name: string, s: Spec): Channel {
    Channel(name, s.primaryUrl, s.policy, s.fixedId, s.rows)
  }

  predicate IdOk(id: string) {
    id != "" && Trim(id) == id
  }

  predicate KnownProxies(proxies: map<string, Proxy>, rows: seq<Row>) {
    forall i :: 0 <= i < |rows| ==> rows[i].proxyId == "" || rows[i].proxyId in proxies
  }

  predicate DistinctSources(rows: seq<Row>) {
    forall i, j :: 0 <= i < j < |rows| ==> !SameSource(rows[i], rows[j])
  }

  /** What resolveChannelSpec lets through. */
  predicate SpecOk(s: Spec, proxies: map<string, Proxy>) {
    && s.rows != [] && IdOk(s.fixedId) && IndexOfRow(s.rows, s.fixedId) < |s.rows|
    && KnownProxies(proxies, s.rows) && DistinctSources(s.rows) && NoRepeats(AllResolved(proxies, s.rows))
    && s.primaryUrl == Stable(proxies, Primary(AsChannel("", s)))
  }

  /** The rows as asked for, trimmed, under ids that are never blank. */
  predicate RowsFrom(rows: seq<Row>, raw: seq<Row>) {
    |rows| <= |raw| && forall i :: 0 <= i < |rows| ==>
      rows[i].url == Trim(raw[i].url) && rows[i].proxyId == Trim(raw[i].proxyId) && IdOk(rows[i].id)
  }

  /** The sources of the rows, as far as trimming goes. */
  function Sources(raw: seq<Row>): seq<Row> {
    seq(|raw|, i requires 0 <= i < |raw| => Row("", Trim(raw[i].url), Trim(raw[i].proxyId)))
  }

  /** Every row has a valid link, and no source comes twice. */
  predicate RowsFit(o: Outside, raw: seq<Row>) {
    && (forall i :: 0 <= i < |raw| ==> ValidLink(o, Trim(raw[i].url), Trim(raw[i].proxyId)))
    && forall i, j :: 0 <= i < j < |raw| ==>
         (Trim(raw[i].url), Trim(raw[i].proxyId)) != (Trim(raw[j].url), Trim(raw[j].proxyId))
  }

  /** When resolveChannelSpec lets a channel through. */
  predicate SpecFits(o: Outside, proxies: map<string, Proxy>, in': Input, existing: Option<Channel>) {
    var raw := RawRows(in', existing);
    && WantedPolicy(in'.policy, existing).Some? && raw != [] && RowsFit(o, raw)
    && KnownProxies(proxies, Sources(raw)) && NoRepeats(AllResolved(proxies, Sources(raw)))
  }

  lemma RowFits(o: Outside, raw: seq<Row>, i: nat)
    requires i < |raw| && RowsFit(o, raw[..i]) && ValidLink(o, Trim(raw[i].url), Trim(raw[i].proxyId))
    requires forall k :: 0 <= k < i ==> (Trim(raw[k].url), Trim(raw[k].proxyId)) != (Trim(raw[i].url), Trim(raw[i].proxyId))
    ensures RowsFit(o, raw[..i + 1])
  {
    hide Trim, ValidLink;
    assert raw[..i + 1] == raw[..i] + [raw[i]];
  }

  lemma {:induction false} AllResolvedPrefix(proxies: map<string, Proxy>, rows: seq<Row>, n: nat)
    requires n <= |rows|
    ensures AllResolved(proxies, rows[..n]) <= AllResolved(proxies, rows)
    decreases |rows|
  {
    hide ResolvedForDedupe;
    if n < |rows| {
      AllResolvedPrefix(proxies, rows[..|rows| - 1], n);
      assert rows[..|rows| - 1][..n] == rows[..n];
    } else {
      assert rows[..n] == rows;
    }
  }

  /** A URL among those before, or earlier in the same row, comes twice. */
  lemma SecondTime(all: seq<string>, before: seq<string>, urls: seq<string>, j: nat)
    requires before + urls <= all && j < |urls| && urls[j] in before + urls[..j]
    ensures !NoRepeats(all)
  {
    var k :| 0 <= k < |before| + j && (before + urls[..j])[k] == urls[j];
    assert all[k] == urls[j] && all[|before| + j] == urls[j];
  }

  lemma {:induction false} AllResolvedSame(proxies: map<string, Proxy>, a: seq<Row>, b: seq<Row>)
    requires |a| == |b| && forall i :: 0 <= i < |a| ==> SameSource(a[i], b[i])
    ensures AllResolved(proxies, a) == AllResolved(proxies, b)
  {
    if a != [] {
      AllResolvedSame(proxies, a[..|a| - 1], b[..|b| - 1]);
    }
  }

  /** Ids play no part in what a spec is checked for. */
  lemma SameRows(proxies: map<string, Proxy>, rows: seq<Row>, raw: seq<Row>)
    requires |rows| == |raw| && RowsFrom(rows, raw)
    ensures KnownProxies(proxies, rows) == KnownProxies(proxies, Sources(raw))
    ensures AllResolved(proxies, rows) == AllResolved(proxies, Sources(raw))
    ensures (exists o :: RowsFit(o, raw)) ==> DistinctSources(rows)
  {
    hide AllResolved, Trim, ValidLink;
    AllResolvedSame(proxies, rows, Sources(raw));
  }

  function RawRows(in': Input, existing: Option<Channel>): seq<Row> {
    if in'.rows.Some? then in'.rows.value
    else if existing.Some? then existing.value.rows
    else [Row("", in'.url, "")]
  }

  /** The pick asked for; a blank one means the present pick. */
  function WantedId(wanted: string, existing: Option<Channel>): string {
    if Trim(wanted) == "" && existing.Some? then Trim(FixedIdOf(existing.value)) else Trim(wanted)
  }

  /** The row picked, else the first. */
  function Picked(rows: seq<Row>, wanted: string): string
    requires rows != []
  {
    if wanted != "" && IndexOfRow(rows, wanted) < |rows| then wanted else rows[0].id
  }

  function WantedPolicy(raw: string, existing: Option<Channel>): Option<Policy> {
    if Trim(raw) == "" && existing.Some? then Some(existing.value.policy) else ParsePolicy(raw, true)
  }

  // ---------------------------------------------------------------- proxies as asked for

  function ServersOf(in': ProxyInput, existing: Option<Proxy>): seq<Server> {
    if in'.servers.Some? then in'.servers.value else if existing.Some? then existing.value.servers else []
  }

  /** Every server's URL is http(s), and none comes twice. */
  predicate ServersFit(o: Outside, raw: seq<Server>) {
    && (forall i :: 0 <= i < |raw| ==> o.web(Trim(raw[i].url)))
    && forall i, j :: 0 <= i < j < |raw| ==> Trim(raw[i].url) != Trim(raw[j].url)
  }

  predicate HasServer(servers: seq<Server>, id: string) {
    exists k :: 0 <= k < |servers| && servers[k].id == id
  }

  /** The servers as asked for, trimmed; an id is kept unless blank or taken by one before. */
  predicate ServersFrom(servers: seq<Server>, raw: seq<Server>) {
    |servers| == |raw| && forall i :: 0 <= i < |servers| ==>
      servers[i].url == Trim(raw[i].url) && IdOk(servers[i].id)
      && (Trim(raw[i].id) != "" && !HasServer(servers[..i], Trim(raw[i].id)) ==> servers[i].id == Trim(raw[i].id))
  }

  /** The ids used so far are those of the servers. */
  predicate UsedIn(servers: seq<Server>, used: set<string>) {
    (forall k :: 0 <= k < |servers| ==> servers[k].id in used) && forall x :: x in used ==> HasServer(servers, x)
  }

  lemma NoServers()
    ensures ServersFrom([], []) && UsedIn([], {})
  {
  }

  lemma UsedGrows(servers: seq<Server>, s: Server, used: set<string>)
    requires UsedIn(servers, used)
    ensures UsedIn(servers + [s], used + {s.id})
  {
    var more := servers + [s];
    forall x | x in used + {s.id} ensures HasServer(more, x) {
      if x in used {
        var k :| 0 <= k < |servers| && servers[k].id == x;
        assert more[k].id == x;
      } else {
        assert more[|servers|].id == x;
      }
    }
  }

  lemma ServersGrow(servers: seq<Server>, s: Server, used: set<string>, raw: seq<Server>, i: nat)
    requires i < |raw| && ServersFrom(servers, raw[..i]) && UsedIn(servers, used) && s.url == Trim(raw[i].url) && IdOk(s.id)
    requires Trim(raw[i].id) != "" && Trim(raw[i].id) !in used ==> s.id == Trim(raw[i].id)
    ensures UsedIn(servers + [s], used + {s.id}) && ServersFrom(servers + [s], raw[..i + 1])
  {
    UsedGrows(servers, s, used);
    hide Trim, IdOk, HasServer;
    var more := servers + [s];
    forall k | 0 <= k < |more|
      ensures more[k].url == Trim(raw[..i + 1][k].url) && IdOk(more[k].id)
      ensures Trim(raw[..i + 1][k].id) != "" && !HasServer(more[..k], Trim(raw[..i + 1][k].id)) ==> more[k].id == Trim(raw[..i + 1][k].id)
    {
      assert raw[..i + 1][k] == raw[k] && more[..k] == servers[..k];
      if k < i {
        assert raw[..i][k] == raw[k] && more[k] == servers[k];
      } else {
        assert servers[..k] == servers;
        if Trim(raw[i].id) in used {
          assert HasServer(servers, Trim(raw[i].id));
        }
      }
    }
  }

  lemma FitGrows(o: Outside, raw: seq<Server>, i: nat)
    requires i < |raw| && ServersFit(o, raw[..i]) && o.web(Trim(raw[i].url))
    requires forall k :: 0 <= k < i ==> Trim(raw[k].url) != Trim(raw[i].url)
    ensures ServersFit(o, raw[..i + 1])
  {
    hide Trim;
    assert raw[..i + 1] == raw[..i] + [raw[i]];
  }

  lemma SameMany(servers: seq<Server>, raw: seq<Server>)
    requires ServersFrom(servers, raw)
    ensures |servers| == |raw|
  {
  }

  /** The server asked for; a blank one means the present pick. */
  function WantedServer(in': ProxyInput, existing: Option<Proxy>): string {
    if Trim(in'.fixedId) == "" && existing.Some? then Trim(existing.value.fixedId) else Trim(in'.fixedId)
  }

  /** When resolveProxySpec lets a proxy through. */
  predicate ProxyFits(o: Outside, in': ProxyInput, existing: Option<Proxy>) {
    Trim(in'.name) != "" && ParsePolicy(in'.policy, false).Some?
    && ServersOf(in', existing) != [] && ServersFit(o, ServersOf(in', existing))
  }

  predicate ProxyFrom(p: Proxy, in': ProxyInput, existing: Option<Proxy>) {
    && p.name == Trim(in'.name) != "" && ParsePolicy(in'.policy, false) == Some(p.policy)
    && p.servers != [] && ServersFrom(p.servers, ServersOf(in', existing))
    && p.fixedId == if HasServer(p.servers, WantedServer(in', existing)) then WantedServer(in', existing) else p.servers[0].id
  }

  // ---------------------------------------------------------------- what a restore brings back

  predicate ChannelFrom(c: Channel, in': Input, existing: Option<Channel>) {
    && c.name == Trim(in'.name) != "" && |c.rows| == |RawRows(in', existing)| && RowsFrom(c.rows, RawRows(in', existing))
    && WantedPolicy(in'.policy, existing) == Some(c.policy)
    && c.rows != [] && c.fixedId == Picked(c.rows, WantedId(in'.fixedId, existing))
  }

  predicate Restored(proxies: map<string, Proxy>, b: (string, ProxyInput)) {
    b.0 in proxies && ProxyFrom(proxies[b.0], b.1, None)
  }

  predicate RestoredChannel(channels: map<string, Channel>, b: (string, Input)) {
    b.0 in channels && ChannelFrom(channels[b.0], b.1, None)
  }

  function IdsOf<T>(rows: seq<(string, T)>): seq<string> {
    seq(|rows|, i requires 0 <= i < |rows| => rows[i].0)
  }

  function Firsts<T>(rows: seq<(string, T)>): set<string> {
    Elements(IdsOf(rows))
  }

  predicate ProxiesRestored(proxies: map<string, Proxy>, backup: seq<(string, ProxyInput)>) {
    proxies.Keys == Firsts(backup) && NoRepeats(IdsOf(backup)) && forall i :: 0 <= i < |backup| ==> Restored(proxies, backup[i])
  }

  predicate ChannelsRestored(channels: map<string, Channel>, backup: seq<(string, Input)>) {
    channels.Keys == Firsts(backup) && NoRepeats(IdsOf(backup)) && forall i :: 0 <= i < |backup| ==> RestoredChannel(channels, backup[i])
  }

  lemma OneMoreId<T>(rows: seq<(string, T)>, i: nat)
    requires i < |rows| && NoRepeats(IdsOf(rows[..i])) && rows[i].0 !in Firsts(rows[..i])
    ensures NoRepeats(IdsOf(rows[..i + 1])) && Firsts(rows[..i + 1]) == Firsts(rows[..i]) + {rows[i].0}
    ensures forall k :: 0 <= k < i ==> rows[k].0 in Firsts(rows[..i])
  {
    assert IdsOf(rows[..i + 1]) == IdsOf(rows[..i]) + [rows[i].0];
    forall k | 0 <= k < i ensures rows[k].0 in Firsts(rows[..i]) {
      assert IdsOf(rows[..i])[k] == rows[k].0;
    }
  }

  lemma NothingRestored(proxies: seq<(string, ProxyInput)>, channels: seq<(string, Input)>)
    ensures ProxiesRestored(map[], proxies[..0]) && ChannelsRestored(map[], channels[..0])
  {
  }

  lemma OneMoreProxy(proxies: map<string, Proxy>, p: Proxy, backup: seq<(string, ProxyInput)>, i: nat)
    requires i < |backup| && ProxiesRestored(proxies, backup[..i]) && backup[i].0 !in proxies && ProxyFrom(p, backup[i].1, None)
    ensures ProxiesRestored(proxies[backup[i].0 := p], backup[..i + 1])
  {
    hide ProxyFrom, Firsts, IdsOf, NoRepeats;
    OneMoreId(backup, i);
    var after := proxies[backup[i].0 := p];
    var done := backup[..i + 1];
    forall k | 0 <= k < |done| ensures Restored(after, done[k]) {
      assert done[k] == backup[k];
      if k < i {
        assert backup[..i][k] == backup[k] && Restored(proxies, backup[..i][k]);
      }
    }
  }

  lemma OneMoreChannel(channels: map<string, Channel>, c: Channel, backup: seq<(string, Input)>, i: nat)
    requires i < |backup| && ChannelsRestored(channels, backup[..i]) && backup[i].0 !in channels && ChannelFrom(c, backup[i].1, None)
    ensures ChannelsRestored(channels[backup[i].0 := c], backup[..i + 1])
  {
    hide ChannelFrom, Firsts, IdsOf, NoRepeats;
    OneMoreId(backup, i);
    var after := channels[backup[i].0 := c];
    var done := backup[..i + 1];
    forall k | 0 <= k < |done| ensures RestoredChannel(after, done[k]) {
      assert done[k] == backup[k];
      if k < i {
        assert backup[..i][k] == backup[k] && RestoredChannel(channels, backup[..i][k]);
      }
    }
  }

  class Store {
    var channels: map<string, Channel>
    var proxies: map<string, Proxy>
    var ids: nat

    ghost function Abs(): ChannelModel.Store
      reads this
    {
      ChannelModel.Store(channels, proxies)
    }

    ghost predicate Valid()
      reads this
    {
      StoreInv(Abs())
    }

    constructor ()
      ensures Valid() && channels == map[] && proxies == map[]
    {
      channels, proxies, ids := map[], map[], 0;
    }

    // -------------------------------------------------------------- resolveChannelSpec

    method NewId(o: Outside) returns (id: string)
      requires IdsOk(o)
      modifies `ids
      ensures IdOk(id) && id == o.newId(old(ids)) && ids == old(ids) + 1
    {
      id := o.newId(ids);
      assert OutsideOk(o, ids);
      ids := ids + 1;
    }

    /** normalizeChannelUpstream: the id is kept unless blank or already used. */
    method NormalizeRow(o: Outside, u: Row, used: set<string>) returns (r: Option<Row>)
      requires IdsOk(o)
      modifies `ids
      ensures old(ids) <= ids
      ensures r.Some? <==> ValidLink(o, Trim(u.url), Trim(u.proxyId))
      ensures r.Some? ==> r.value.url == Trim(u.url) && r.value.proxyId == Trim(u.proxyId) && IdOk(r.value.id)
      ensures r.Some? && Trim(u.id) != "" && Trim(u.id) !in used ==> r.value.id == Trim(u.id)
    {
      hide Trim, ValidProxiedLink;
      var raw, proxyId := Trim(u.url), Trim(u.proxyId);
      if !ValidLink(o, raw, proxyId) {
        return None;
      }
      var id := Trim(u.id);
      TrimTwice(u.id);
      if id == "" {
        id := NewId(o);
      }
      if id in used {
        id := NewId(o);
      }
      r := Some(Row(id, raw, proxyId));
    }

    /** The first loop: rows normalised, no source twice. */
    method NormalizeRows(o: Outside, raw: seq<Row>) returns (rows: Option<seq<Row>>)
      requires IdsOk(o)
      modifies `ids
      ensures old(ids) <= ids
      ensures rows.Some? <==> RowsFit(o, raw)
      ensures rows.Some? ==> |rows.value| == |raw| && RowsFrom(rows.value, raw)
    {
      hide Trim, ValidProxiedLink, IdsOk, IdOk;
      var used: set<string> := {};
      var seen: set<(string, string)> := {};
      var out: seq<Row> := [];
      for i := 0 to |raw|
        invariant |out| == i && RowsFrom(out, raw) && RowsFit(o, raw[..i]) && old(ids) <= ids
        invariant forall k :: 0 <= k < i ==> (Trim(raw[k].url), Trim(raw[k].proxyId)) in seen
        invariant forall x :: x in seen ==> exists k :: 0 <= k < i && (Trim(raw[k].url), Trim(raw[k].proxyId)) == x
      {
        var item := NormalizeRow(o, raw[i], used);
        if item.None? {
          return None;
        }
        var key := (item.value.url, item.value.proxyId);
        if key in seen {
          return None;
        }
        RowFits(o, raw, i);
        seen := seen + {key};
        used := used + {item.value.id};
        out := out + [item.value];
      }
      assert raw[..|raw|] == raw;
      rows := Some(out);
    }

    method AllKnown(rows: seq<Row>) returns (ok: bool)
      ensures ok == KnownProxies(proxies, rows)
    {
      for i := 0 to |rows|
        invariant KnownProxies(proxies, rows[..i])
      {
        if rows[i].proxyId != "" && rows[i].proxyId !in proxies {
          return false;
        }
        assert rows[..i + 1] == rows[..i] + [rows[i]];
      }
      assert rows[..|rows|] == rows;
      ok := true;
    }

    /** The last loop: no resolved URL twice. */
    method ResolvedDistinct(rows: seq<Row>) returns (ok: bool)
      ensures ok <==> NoRepeats(AllResolved(proxies, rows))
    {
      hide ResolvedForDedupe;
      var seen: set<string> := {};
      ghost var all: seq<string> := [];
      assert rows[..0] == [];
      for i := 0 to |rows|
        invariant all == AllResolved(proxies, rows[..i]) && NoRepeats(all) && seen == Elements(all)
      {
        var urls := ResolvedForDedupe(proxies, rows[i]);
        ghost var before := all;
        assert rows[..i + 1][..i] == rows[..i] && urls[..0] == [];
        for j := 0 to |urls|
          invariant all == before + urls[..j] && NoRepeats(all) && seen == Elements(all)
        {
          if urls[j] in seen {
            AllResolvedPrefix(proxies, rows, i + 1);
            SecondTime(AllResolved(proxies, rows), before, urls, j);
            return false;
          }
          assert urls[..j + 1] == urls[..j] + [urls[j]];
          all := all + [urls[j]];
          seen := seen + {urls[j]};
        }
        assert urls[..|urls|] == urls && rows[..i + 1][..i] == rows[..i];
      }
      assert rows[..|rows|] == rows;
      ok := true;
    }

    /** The fixed pick, if it names a row, else the first row. */
    method PickFixedId(rows: seq<Row>, wanted: string, existing: Option<Channel>) returns (id: string)
      requires rows != [] && forall i :: 0 <= i < |rows| ==> IdOk(rows[i].id)
      ensures IdOk(id) && IndexOfRow(rows, id) < |rows|
      ensures id == Picked(rows, WantedId(wanted, existing))
    {
      hide Trim, FixedIdOf;
      id := Trim(wanted);
      TrimTwice(wanted);
      if id == "" && existing.Some? {
        id := Trim(FixedIdOf(existing.value));
        TrimTwice(FixedIdOf(existing.value));
      }
      if id == "" || IndexOfRow(rows, id) == |rows| {
        id := rows[0].id;
      }
    }

    method ResolveSpec(o: Outside, in': Input, existing: Option<Channel>) returns (r: Option<Spec>)
      requires IdsOk(o)
      modifies `ids
      ensures old(ids) <= ids
      ensures r.Some? <==> SpecFits(o, proxies, in', existing)
      ensures r.Some? ==> SpecOk(r.value, proxies)
      ensures r.Some? ==> |r.value.rows| == |RawRows(in', existing)| && RowsFrom(r.value.rows, RawRows(in', existing))
      ensures r.Some? ==> WantedPolicy(in'.policy, existing) == Some(r.value.policy)
      ensures r.Some? ==> r.value.rows != [] && r.value.fixedId == Picked(r.value.rows, WantedId(in'.fixedId, existing))
    {
      hide Trim, ValidLink, Stable, LowerAscii, NoRepeats, IdsOk, IndexOfRow, WantedId, WantedPolicy, AllResolved, Sources, RowsFit, RawRows;
      var policy := WantedPolicy(in'.policy, existing);
      var raw := RawRows(in', existing);
      if policy.None? || raw == [] {
        return None;
      }
      var rows := NormalizeRows(o, raw);
      if rows.None? {
        return None;
      }
      SameRows(proxies, rows.value, raw);
      var known := AllKnown(rows.value);
      var distinct := ResolvedDistinct(rows.value);
      if !known || !distinct {
        return None;
      }
      var fixedId := PickFixedId(rows.value, in'.fixedId, existing);
      var primary := rows.value[0];
      if policy.value.Fixed? {
        primary := rows.value[IndexOfRow(rows.value, fixedId)];
      }
      r := Some(Spec(rows.value, policy.value, fixedId, Stable(proxies, primary)));
    }

    // -------------------------------------------------------------- channels

    /** insertChannelTx. `commits` says whether the unique indexes on names, URLs and row ids
        let the rows in. */
    method InsertChannel(o: Outside, id: string, in': Input, commits: bool) returns (ok: bool)
      requires Valid() && IdsOk(o)
      modifies this
      ensures Valid() && proxies == old(proxies) && old(ids) <= ids
      ensures ok <==> Trim(in'.name) != "" && id !in old(channels) && SpecFits(o, proxies, in', None) && commits
      ensures !ok ==> channels == old(channels)
      ensures ok ==> id in channels && channels == old(channels)[id := channels[id]] && ChannelFrom(channels[id], in', None)
    {
      hide Trim, StoreInv, RowsFrom, RawRows, IdsOk, SpecFits, WantedPolicy, WantedId, Picked;
      ok := false;
      if Trim(in'.name) != "" && id !in channels {
        var spec := ResolveSpec(o, in', None);
        if spec.Some? && commits {
          Written(Abs(), id, Trim(in'.name), spec.value);
          channels := channels[id := AsChannel(Trim(in'.name), spec.value)];
          ok := true;
        }
      }
    }

    /** UpdateChannel: the rows replaced, the columns rewritten. */
    method UpdateChannel(o: Outside, id: string, in': Input, commits: bool) returns (ok: bool)
      requires Valid() && IdsOk(o)
      modifies this
      ensures Valid() && proxies == old(proxies)
      ensures ok <==> Trim(in'.name) != "" && id in old(channels) && SpecFits(o, proxies, in', Some(old(channels)[id])) && commits
      ensures !ok ==> channels == old(channels)
      ensures ok ==> id in channels && channels == old(channels)[id := channels[id]]
                     && ChannelFrom(channels[id], in', Some(old(channels)[id]))
    {
      hide Trim, StoreInv, RowsFrom, RawRows, IdsOk, SpecFits, WantedPolicy, WantedId, Picked;
      ok := false;
      if Trim(in'.name) != "" && id in channels {
        var spec := ResolveSpec(o, in', Some(channels[id]));
        if spec.Some? && commits {
          Written(Abs(), id, Trim(in'.name), spec.value);
          channels := channels[id := AsChannel(Trim(in'.name), spec.value)];
          ok := true;
        }
      }
    }

    method DeleteChannel(id: string) returns (ok: bool)
      requires Valid()
      modifies `channels
      ensures Valid() && ok == (id in old(channels)) && channels == old(channels) - {id}
    {
      hide StoreInv;
      ChannelRemoved(Abs(), id);
      ok := id in channels;
      channels := channels - {id};
    }

    // -------------------------------------------------------------- proxies

    /** normalizeProxyServer: the id is kept unless blank or already used. */
    method NormalizeServer(o: Outside, s: Server, used: set<string>) returns (r: Option<Server>)
      requires IdsOk(o)
      modifies `ids
      ensures r.Some? <==> o.web(Trim(s.url))
      ensures r.Some? ==> r.value.url == Trim(s.url) && IdOk(r.value.id)
      ensures r.Some? && Trim(s.id) != "" && Trim(s.id) !in used ==> r.value.id == Trim(s.id)
    {
      hide Trim;
      if !o.web(Trim(s.url)) {
        return None;
      }
      var id := Trim(s.id);
      TrimTwice(s.id);
      if id == "" {
        id := NewId(o);
      }
      if id in used {
        id := NewId(o);
      }
      r := Some(Server(id, Trim(s.url)));
    }

    /** The loop over the servers. */
    method NormalizeServers(o: Outside, raw: seq<Server>) returns (servers: Option<seq<Server>>)
      requires IdsOk(o)
      modifies `ids
      ensures servers.Some? <==> ServersFit(o, raw)
      ensures servers.Some? ==> ServersFrom(servers.value, raw)
    {
      hide Trim, IdsOk, IdOk, HasServer, ServersFrom;
      var used: set<string>, seen: set<string> := {}, {};
      var out: seq<Server> := [];
      NoServers();
      for i := 0 to |raw|
        invariant |out| == i && ServersFit(o, raw[..i]) && ServersFrom(out, raw[..i])
        invariant UsedIn(out, used)
        invariant forall k :: 0 <= k < i ==> Trim(raw[k].url) in seen
        invariant forall x :: x in seen ==> exists k :: 0 <= k < i && Trim(raw[k].url) == x
      {
        var item := NormalizeServer(o, raw[i], used);
        if item.None? || item.value.url in seen {
          return None;
        }
        ServersGrow(out, item.value, used, raw, i);
        FitGrows(o, raw, i);
        used, seen := used + {item.value.id}, seen + {item.value.url};
        out := out + [item.value];
      }
      assert raw[..|raw|] == raw;
      servers := Some(out);
    }

    /** resolveProxySpec. */
    method ResolveProxy(o: Outside, in': ProxyInput, existing: Option<Proxy>) returns (r: Option<Proxy>)
      requires IdsOk(o)
      modifies `ids
      ensures r.Some? <==> ProxyFits(o, in', existing)
      ensures r.Some? ==> ProxyFrom(r.value, in', existing)
    {
      hide Trim, IdsOk, LowerAscii, ServersFit, ServersFrom, ParsePolicy;
      var policy := ParsePolicy(in'.policy, false);
      var raw := ServersOf(in', existing);
      if Trim(in'.name) == "" || policy.None? || raw == [] {
        return None;
      }
      var servers := NormalizeServers(o, raw);
      if servers.None? {
        return None;
      }
      SameMany(servers.value, raw);
      var fixedId := WantedServer(in', existing);
      if !HasServer(servers.value, fixedId) {
        fixedId := servers.value[0].id;
      }
      r := Some(Proxy(Trim(in'.name), policy.value, fixedId, servers.value));
    }

    method CreateProxy(o: Outside, id: string, in': ProxyInput, commits: bool) returns (ok: bool)
      requires Valid() && IdsOk(o)
      modifies this
      ensures Valid() && channels == old(channels)
      ensures !ok ==> proxies == old(proxies)
      ensures ok ==> id !in old(proxies) && id in proxies && proxies == old(proxies)[id := proxies[id]]
      ensures ok ==> ProxyFrom(proxies[id], in', None)
      ensures ok <==> id !in old(proxies) && ProxyFits(o, in', None) && commits
    {
      hide StoreInv, IdsOk, ProxyFrom, ProxyFits;
      ok := false;
      if id !in proxies {
        var p := ResolveProxy(o, in', None);
        if p.Some? && commits {
          ProxyAdded(Abs(), id, p.value);
          proxies := proxies[id := p.value];
          ok := true;
        }
      }
    }

    /** Some channel's row uses the proxy (countProxyChannelsTx counts them). */
    method UsersOf(proxyId: string) returns (users: set<string>)
      ensures users == set c | c in channels && Uses(channels[c], proxyId)
    {
      users := {};
      var todo := channels.Keys;
      while todo != {}
        invariant todo <= channels.Keys
        invariant users == set c | c in channels && c !in todo && Uses(channels[c], proxyId)
        decreases todo
      {
        var c := Pick(todo);
        if Uses(channels[c], proxyId) {
          users := users + {c};
        }
        todo := todo - {c};
      }
    }

    /** DeleteProxy refuses while a channel uses the proxy. */
    method DeleteProxy(id: string) returns (ok: bool)
      requires Valid()
      modifies `proxies
      ensures Valid()
      ensures ok <==> id in old(proxies) && forall c :: c in channels ==> !Uses(channels[c], id)
      ensures proxies == if ok then old(proxies) - {id} else old(proxies)
    {
      hide StoreInv;
      var users := UsersOf(id);
      ok := users == {} && id in proxies;
      if ok {
        forall c | c in channels ensures !Uses(channels[c], id) {
          assert c !in users;
        }
        ProxyRemoved(Abs(), id);
        proxies := proxies - {id};
      } else if c :| c in users {
        assert Uses(channels[c], id);
      }
    }

    /** UpdateProxy and refreshProxyDependentsTx: the primary of every channel whose primary row
        uses the proxy is derived again; `affected` are all channels with a row that uses it. */
    method UpdateProxy(o: Outside, id: string, in': ProxyInput, commits: bool) returns (ok: bool, affected: set<string>)
      requires Valid() && IdsOk(o)
      modifies this
      ensures Valid()
      ensures !ok ==> channels == old(channels) && proxies == old(proxies)
      ensures ok ==> id in old(proxies) && id in proxies && proxies == old(proxies)[id := proxies[id]]
      ensures ok ==> ProxyFrom(proxies[id], in', Some(Attached(old(proxies)[id])))
      ensures ok ==> affected == set c | c in old(channels) && Uses(old(channels)[c], id)
      ensures channels.Keys == old(channels).Keys
      ensures forall c :: c in channels ==> channels[c] == old(channels)[c].(upstreamUrl := channels[c].upstreamUrl)
      ensures forall c :: c in channels && c !in affected ==> channels[c] == old(channels)[c]
    {
      hide StoreInv, IdsOk, Uses, ProxyFrom;
      ok, affected := false, {};
      if id in proxies {
        var p := ResolveProxy(o, in', Some(Attached(proxies[id])));
        if p.Some? && commits {
          affected := UsersOf(id);
          var proxies' := proxies[id := p.value];
          var refreshed := Refresh(proxies', id, affected);
          ProxyChanged(Abs(), id, p.value, refreshed);
          channels, proxies := refreshed, proxies';
          ok := true;
        }
      }
    }

    method Refresh(proxies': map<string, Proxy>, id: string, users: set<string>) returns (refreshed: map<string, Channel>)
      requires users <= channels.Keys
      ensures refreshed.Keys == channels.Keys
      ensures forall c :: c in channels ==> refreshed[c] == if c in users then Refreshed(proxies', id, channels[c]) else channels[c]
    {
      hide Stable, Primary;
      refreshed := channels;
      var todo := users;
      while todo != {}
        invariant todo <= users && refreshed.Keys == channels.Keys
        invariant forall c :: c in channels ==>
                    refreshed[c] == if c in users && c !in todo then Refreshed(proxies', id, channels[c]) else channels[c]
        decreases todo
      {
        var c := Pick(todo);
        var primary := Primary(refreshed[c]);
        if primary.proxyId == id {
          refreshed := refreshed[c := refreshed[c].(upstreamUrl := Stable(proxies', primary))];
        }
        todo := todo - {c};
      }
    }

    // -------------------------------------------------------------- restore

    /** RestoreLibrary as far as proxies and channels go: all rows deleted, the backup's rows
        inserted one by one, or nothing changed. */
    method Restore(o: Outside, backupProxies: seq<(string, ProxyInput)>, backupChannels: seq<(string, Input)>, commits: bool) returns (ok: bool)
      requires Valid() && IdsOk(o)
      modifies this
      ensures Valid()
      ensures !ok ==> channels == old(channels) && proxies == old(proxies)
      ensures ok ==> ProxiesRestored(proxies, backupProxies) && ChannelsRestored(channels, backupChannels)
    {
      hide IdsOk, StoreInv, ProxyFrom, ChannelFrom, ProxiesRestored, ChannelsRestored;
      var wereChannels, wereProxies := channels, proxies;
      channels, proxies := map[], map[];
      NothingStored();
      ok := true;
      NothingRestored(backupProxies, backupChannels);
      for i := 0 to |backupProxies|
        invariant Valid() && ok && channels == map[] && ProxiesRestored(proxies, backupProxies[..i])
      {
        ghost var before := proxies;
        ok := CreateProxy(o, backupProxies[i].0, backupProxies[i].1, commits);
        if !ok {
          channels, proxies := wereChannels, wereProxies;
          return;
        }
        OneMoreProxy(before, proxies[backupProxies[i].0], backupProxies, i);
      }
      assert backupProxies[..|backupProxies|] == backupProxies;
      for i := 0 to |backupChannels|
        invariant Valid() && ok && ProxiesRestored(proxies, backupProxies) && ChannelsRestored(channels, backupChannels[..i])
      {
        ghost var before := channels;
        ok := InsertChannel(o, backupChannels[i].0, backupChannels[i].1, commits);
        if !ok {
          channels, proxies := wereChannels, wereProxies;
          return;
        }
        OneMoreChannel(before, channels[backupChannels[i].0], backupChannels, i);
      }
      assert backupChannels[..|backupChannels|] == backupChannels;
    }

    // -------------------------------------------------------------- import

    /** findChannelByUpstreamURLTx: by the row. Without a proxy the stored URL counts too, and
        the first channel in the query's order is found; with one the query has no order. */
    method FindByUrl(raw: string, proxyId: string) returns (owner: Option<string>)
      ensures owner.Some? ==> owner.value in channels && Owns(Abs(), owner.value, Trim(raw), proxyId)
      ensures owner.None? ==> forall c :: c in channels ==> !Owns(Abs(), c, Trim(raw), proxyId)
      ensures owner.Some? && proxyId == "" ==>
                forall c :: c in channels && Owns(Abs(), c, Trim(raw), "") ==> Earlier(channels, Trim(raw), owner.value, c)
    {
      hide Trim, Owns, HasRow, Earlier;
      var url := Trim(raw);
      owner := None;
      var todo := channels.Keys;
      while todo != {}
        invariant todo <= channels.Keys
        invariant owner.Some? ==> owner.value in channels && Owns(Abs(), owner.value, url, proxyId)
        invariant owner.None? ==> forall c :: c in channels && c !in todo ==> !Owns(Abs(), c, url, proxyId)
        invariant owner.Some? && proxyId == "" ==>
                    forall c :: c in channels && c !in todo && Owns(Abs(), c, url, "") ==> Earlier(channels, url, owner.value, c)
        decreases todo
      {
        var c := Pick(todo);
        var owns := OwnsUrl(c, url, proxyId);
        if owns && (owner.None? || (proxyId == "" && Earlier(channels, url, c, owner.value))) {
          FirstOwner(channels, url, owner, c);
          owner := Some(c);
        } else if owner.Some? {
          EarlierTotal(channels, url, owner.value, c);
        }
        todo := todo - {c};
      }
    }

    method OwnsUrl(c: string, url: string, proxyId: string) returns (owns: bool)
      requires c in channels
      ensures owns == Owns(Abs(), c, url, proxyId)
    {
      owns := (proxyId == "" && channels[c].upstreamUrl == url) || HasRow(channels[c].rows, url, proxyId);
    }

    /** findImportChannel: by the row, else by any URL the row would resolve to. */
    method FindImportChannel(url: string, proxyId: string) returns (owner: Option<string>)
      ensures owner.Some? ==> owner.value in channels && Matches(Abs(), owner.value, url, proxyId)
      ensures owner.None? ==> forall c :: c in channels ==> !Matches(Abs(), c, url, proxyId)
      ensures owner.Some? && !Owns(Abs(), owner.value, Trim(url), proxyId) ==>
                forall c :: c in channels ==> !Owns(Abs(), c, Trim(url), proxyId)
    {
      hide Trim, Owns;
      owner := FindByUrl(url, proxyId);
      if owner.Some? || proxyId == "" {
        return;
      }
      var urls := ResolvedForDedupe(proxies, Row("", url, proxyId));
      for k := 0 to |urls|
        invariant forall c, m :: c in channels && 0 <= m < k ==> !Owns(Abs(), c, Trim(urls[m]), "")
      {
        owner := FindByUrl(urls[k], "");
        if owner.Some? {
          return;
        }
      }
      owner := None;
    }

    /** findChannelByNameTx; the column compares without ASCII case. */
    method FindByName(name: string) returns (found: Option<string>)
      ensures found.Some? ==> found.value in channels && SameName(channels[found.value].name, name)
      ensures found.None? ==> forall c :: c in channels ==> !SameName(channels[c].name, name)
    {
      hide SameName;
      var todo := channels.Keys;
      while todo != {}
        invariant todo <= channels.Keys
        invariant forall c :: c in channels && c !in todo ==> !SameName(channels[c].name, name)
        decreases todo
      {
        var c := Pick(todo);
        if SameName(channels[c].name, name) {
          return Some(c);
        }
        todo := todo - {c};
      }
      found := None;
    }

    method FindProxyByName(name: string) returns (id: Option<string>)
      requires ProxyNamesUnique(proxies)
      ensures id == ByName(proxies, name)
    {
      hide SameName, Trim;
      id := None;
      if Trim(name) != "" {
        var todo := proxies.Keys;
        while todo != {}
          invariant todo <= proxies.Keys
          invariant forall p :: p in proxies && p !in todo ==> !SameName(proxies[p].name, Trim(name))
          decreases todo
        {
          var p := Pick(todo);
          if SameName(proxies[p].name, Trim(name)) {
            NamedOnce(proxies, name, p);
            return Some(p);
          }
          todo := todo - {p};
        }
      }
      NamedNone(proxies, name);
    }

    /** The duplicate check of appendChannelUpstreamTx. */
    method IsDuplicate(rows: seq<Row>, item: Row) returns (dup: bool)
      ensures dup == Duplicate(proxies, rows, item)
    {
      hide ResolvedForDedupe;
      var news := ResolvedForDedupe(proxies, item);
      for i := 0 to |rows|
        invariant forall k :: 0 <= k < i ==> !Clash(proxies, rows[k], item)
      {
        var olds := ResolvedForDedupe(proxies, rows[i]);
        if rows[i].url == item.url && rows[i].proxyId == item.proxyId {
          assert Clash(proxies, rows[i], item);
          return true;
        }
        for a := 0 to |olds|
          invariant forall x :: 0 <= x < a ==> olds[x] !in news
        {
          for b := 0 to |news|
            invariant forall y :: 0 <= y < b ==> news[y] != olds[a]
          {
            if olds[a] == news[b] {
              assert Clash(proxies, rows[i], item);
              return true;
            }
          }
        }
      }
      dup := false;
    }

    /** appendChannelUpstreamTx: none if the row is not valid. */
    method Append(o: Outside, c: string, url: string, proxyId: string) returns (added: Option<bool>)
      requires Valid() && IdsOk(o) && c in channels && (proxyId == "" || proxyId in proxies) && Trim(url) == url && Trim(proxyId) == proxyId
      modifies `channels, `ids
      ensures Valid() && old(ids) <= ids
      ensures added.Some? <==> ValidLink(o, url, proxyId)
      ensures added.Some? ==> added.value == !Duplicate(proxies, old(channels)[c].rows, Row("", url, proxyId))
      ensures if added.Some? && added.value
              then exists id :: IdOk(id) && channels == WithRow(old(channels), c, Row(id, url, proxyId))
              else channels == old(channels)
    {
      hide StoreInv, IdsOk, Trim, ValidProxiedLink;
      var item := NormalizeRow(o, Row("", url, proxyId), {});
      if item.None? {
        return None;
      }
      var dup := IsDuplicate(channels[c].rows, item.value);
      IdPlaysNoPart(proxies, channels[c].rows, item.value);
      if dup {
        return Some(false);
      }
      RowAppended(Abs(), c, item.value);
      channels := channels[c := channels[c].(rows := channels[c].rows + [item.value])];
      added := Some(true);
    }
  }

  function WithRow(channels: map<string, Channel>, c: string, r: Row): map<string, Channel>
    requires c in channels
  {
    channels[c := channels[c].(rows := channels[c].rows + [r])]
  }

  predicate Uses(c: Channel, proxyId: string) {
    exists i :: 0 <= i < |c.rows| && c.rows[i].proxyId == proxyId && proxyId != ""
  }

  function Refreshed(proxies: map<string, Proxy>, id: string, c: Channel): Channel {
    if Primary(c).proxyId == id then c.(upstreamUrl := Stable(proxies, Primary(c))) else c
  }

  // ---------------------------------------------------------------- lookups

  predicate HasRow(rows: seq<Row>, url: string, proxyId: string) {
    exists i :: 0 <= i < |rows| && rows[i].url == url && rows[i].proxyId == proxyId
  }

  predicate Owns(s: ChannelModel.Store, c: string, url: string, proxyId: string) {
    c in s.channels
    && ((proxyId == "" && s.channels[c].upstreamUrl == url) || HasRow(s.channels[c].rows, url, proxyId))
  }

  /** The order of the query: stored URLs before mere rows, then ids. */
  predicate Earlier(channels: map<string, Channel>, url: string, c: string, d: string)
    requires c in channels && d in channels
  {
    var first, second := channels[c].upstreamUrl == url, channels[d].upstreamUrl == url;
    (first && !second) || (first == second && StringLe(c, d))
  }

  lemma EarlierTotal(channels: map<string, Channel>, url: string, c: string, d: string)
    requires c in channels && d in channels
    ensures Earlier(channels, url, c, d) || Earlier(channels, url, d, c)
  {
    StringLeTotal(c, d);
  }

  lemma EarlierTransitive(channels: map<string, Channel>, url: string, c: string, d: string, e: string)
    requires c in channels && d in channels && e in channels
    requires Earlier(channels, url, c, d) && Earlier(channels, url, d, e)
    ensures Earlier(channels, url, c, e)
  {
    if StringLe(c, d) && StringLe(d, e) {
      StringLeTransitive(c, d, e);
    }
  }

  /** A channel earlier than the earliest so far is earlier than all it was earlier than. */
  lemma FirstOwner(channels: map<string, Channel>, url: string, owner: Option<string>, c: string)
    requires c in channels && (owner.Some? ==> owner.value in channels)
    ensures Earlier(channels, url, c, c)
    ensures owner.Some? && Earlier(channels, url, c, owner.value) ==>
              forall d :: d in channels && Earlier(channels, url, owner.value, d) ==> Earlier(channels, url, c, d)
  {
    EarlierTotal(channels, url, c, c);
    hide Earlier;
    if owner.Some? && Earlier(channels, url, c, owner.value) {
      forall d | d in channels && Earlier(channels, url, owner.value, d) ensures Earlier(channels, url, c, d) {
        EarlierTransitive(channels, url, c, owner.value, d);
      }
    }
  }

  predicate Matches(s: ChannelModel.Store, c: string, url: string, proxyId: string) {
    Owns(s, c, Trim(url), proxyId)
    || (proxyId != "" && OwnsResolved(s, c, ResolvedForDedupe(s.proxies, Row("", url, proxyId))))
  }

  predicate OwnsResolved(s: ChannelModel.Store, c: string, urls: seq<string>) {
    exists k :: 0 <= k < |urls| && Owns(s, c, Trim(urls[k]), "")
  }

  /** Equal under SQLite's NOCASE. */
  predicate SameName(a: string, b: string) {
    LowerAscii(a) == LowerAscii(b)
  }

  predicate NamesUnique(channels: map<string, Channel>) {
    forall c, d :: c in channels && d in channels && SameName(channels[c].name, channels[d].name) ==> c == d
  }

  predicate ProxyNamesUnique(proxies: map<string, Proxy>) {
    forall p, q :: p in proxies && q in proxies && SameName(proxies[p].name, proxies[q].name) ==> p == q
  }

  ghost function ByName(proxies: map<string, Proxy>, name: string): Option<string> {
    if Trim(name) != "" && exists p :: p in proxies && SameName(proxies[p].name, Trim(name))
    then (var p :| p in proxies && SameName(proxies[p].name, Trim(name)); Some(p)) else None
  }

  lemma NamedOnce(proxies: map<string, Proxy>, name: string, p: string)
    requires ProxyNamesUnique(proxies) && Trim(name) != "" && p in proxies && SameName(proxies[p].name, Trim(name))
    ensures ByName(proxies, name) == Some(p)
  {
    hide Trim;
  }

  lemma NamedNone(proxies: map<string, Proxy>, name: string)
    requires Trim(name) == "" || forall p :: p in proxies ==> !SameName(proxies[p].name, Trim(name))
    ensures ByName(proxies, name) == None
  {
    hide Trim;
  }

  /** The new row names a source the old one has, or resolves to a URL the old one does. */
  predicate Clash(proxies: map<string, Proxy>, old': Row, new': Row) {
    SameSource(old', new')
    || exists x :: 0 <= x < |ResolvedForDedupe(proxies, old')| && ResolvedForDedupe(proxies, old')[x] in ResolvedForDedupe(proxies, new')
  }

  predicate Duplicate(proxies: map<string, Proxy>, rows: seq<Row>, item: Row) {
    exists i :: 0 <= i < |rows| && Clash(proxies, rows[i], item)
  }

  lemma IdPlaysNoPart(proxies: map<string, Proxy>, rows: seq<Row>, item: Row)
    ensures Duplicate(proxies, rows, item) == Duplicate(proxies, rows, Row("", item.url, item.proxyId))
  {
    SameResolved(proxies, item);
    hide ResolvedForDedupe;
    forall i | 0 <= i < |rows| ensures Clash(proxies, rows[i], item) == Clash(proxies, rows[i], Row("", item.url, item.proxyId)) {
    }
  }

  lemma SameResolved(proxies: map<string, Proxy>, item: Row)
    ensures ResolvedForDedupe(proxies, item) == ResolvedForDedupe(proxies, Row("", item.url, item.proxyId))
  {
  }

  lemma RowAppended(s: ChannelModel.Store, c: string, r: Row)
    requires StoreInv(s) && c in s.channels && (r.proxyId == "" || r.proxyId in s.proxies)
    ensures StoreInv(s.(channels := s.channels[c := s.channels[c].(rows := s.channels[c].rows + [r])]))
  {
    hide Stable, Primary, Trim, IndexOfRow;
    var s' := s.(channels := s.channels[c := s.channels[c].(rows := s.channels[c].rows + [r])]);
    forall d | d in s'.channels ensures RowsOk(s', s'.channels[d]) && PrimaryAgrees(s', d) {
      assert RowsOk(s, s.channels[d]) && PrimaryAgrees(s, d);
      if d == c {
        AppendKeepsPrimary(s.channels[c], r);
      }
    }
  }

  // ---------------------------------------------------------------- why the primary agrees

  /** The name plays no part in the primary; with rows present neither does the stored URL. */
  lemma PrimaryOfSpec(c: Channel, d: Channel)
    requires c.rows == d.rows != [] && c.policy == d.policy && c.fixedId == d.fixedId
    ensures Primary(c) == Primary(d)
  {
  }

  lemma Written(s: ChannelModel.Store, id: string, name: string, spec: Spec)
    requires StoreInv(s) && SpecOk(spec, s.proxies)
    ensures StoreInv(s.(channels := s.channels[id := AsChannel(name, spec)]))
  {
    PrimaryOfSpec(AsChannel(name, spec), AsChannel("", spec));
    hide Stable, Primary, Trim, IndexOfRow, NoRepeats, AllResolved;
  }

  lemma NothingStored()
    ensures StoreInv(ChannelModel.Store(map[], map[]))
  {
  }

  lemma ChannelRemoved(s: ChannelModel.Store, id: string)
    requires StoreInv(s)
    ensures StoreInv(s.(channels := s.channels - {id}))
  {
    hide Stable, Primary, Trim, IndexOfRow;
  }

  lemma ProxyAdded(s: ChannelModel.Store, id: string, p: Proxy)
    requires StoreInv(s) && id !in s.proxies
    ensures StoreInv(s.(proxies := s.proxies[id := p]))
  {
    hide Stable, Primary, Trim, IndexOfRow;
    forall c | c in s.channels ensures RowsOk(s.(proxies := s.proxies[id := p]), s.channels[c]) && PrimaryAgrees(s.(proxies := s.proxies[id := p]), c) {
      OtherProxy(s, s.proxies[id := p], s.channels[c]);
    }
  }

  lemma ProxyRemoved(s: ChannelModel.Store, id: string)
    requires StoreInv(s) && forall c :: c in s.channels ==> !Uses(s.channels[c], id)
    ensures StoreInv(s.(proxies := s.proxies - {id}))
  {
    hide Stable, Primary, Trim, IndexOfRow;
    forall c | c in s.channels ensures RowsOk(s.(proxies := s.proxies - {id}), s.channels[c]) && PrimaryAgrees(s.(proxies := s.proxies - {id}), c) {
      assert !Uses(s.channels[c], id);
      OtherProxy(s, s.proxies - {id}, s.channels[c]);
    }
  }

  lemma ProxyChanged(s: ChannelModel.Store, id: string, p: Proxy, refreshed: map<string, Channel>)
    requires StoreInv(s) && id in s.proxies && refreshed.Keys == s.channels.Keys
    requires forall c :: c in s.channels ==>
               refreshed[c] == if Uses(s.channels[c], id) then Refreshed(s.proxies[id := p], id, s.channels[c]) else s.channels[c]
    ensures StoreInv(ChannelModel.Store(refreshed, s.proxies[id := p]))
  {
    hide Stable, Trim, IndexOfRow, Primary;
    var s' := ChannelModel.Store(refreshed, s.proxies[id := p]);
    forall c | c in refreshed ensures RowsOk(s', refreshed[c]) && PrimaryAgrees(s', c) {
      RefreshedAgrees(s, id, p, c, refreshed[c]);
    }
  }

  lemma RefreshedAgrees(s: ChannelModel.Store, id: string, p: Proxy, c: string, now: Channel)
    requires StoreInv(s) && id in s.proxies && c in s.channels
    requires now == if Uses(s.channels[c], id) then Refreshed(s.proxies[id := p], id, s.channels[c]) else s.channels[c]
    ensures var s' := s.(proxies := s.proxies[id := p]);
            RowsOk(s', now) && now.upstreamUrl == Stable(s'.proxies, Primary(now))
  {
    var was := s.channels[c];
    assert RowsOk(s, was);
    PrimaryOfSpec(was, now);
    hide Stable, Trim, IndexOfRow, Primary;
    if Uses(was, id) {
      if Primary(was).proxyId != id {
        PrimaryProxyDecides(s, s.proxies[id := p], was, id);
      }
    } else {
      OtherProxy(s, s.proxies[id := p], was);
    }
  }

  lemma TrimTwice(s: string)
    ensures Trim(Trim(s)) == Trim(s)
  {
    TrimIsTrimmed(s);
  }
}
