/** Channels, their upstream rows and proxies, and the URL derived from them
    (internal/core/upstream/resolve.go, internal/core/store/upstreams.go). */
module ChannelModel {
  import opened Seqs
  import opened Text

  datatype Policy = Fixed | Random | Failover

  datatype Server = Server(id: string, url: string)

  datatype Proxy = Proxy(name: string, policy: Policy, fixedId: string, servers: seq<Server>)

  /** A row of channel_upstreams; a blank proxyId is NULL. */
  datatype Row = Row(id: string, url: string, proxyId: string)

  /** Rows are in sort order. */
  datatype Channel = Channel(name: string, upstreamUrl: string, policy: Policy, fixedId: string, rows: seq<Row>)

  datatype Store = Store(channels: map<string, Channel>, proxies: map<string, Proxy>)

  // ---------------------------------------------------------------- resolve.go

  datatype ProxyRef = ProxyRef(policy: Policy, servers: seq<string>, fixedIndex: int)

  function TrimRightSlash(s: string): string {
    if s != "" && s[|s| - 1] == '/' then TrimRightSlash(s[..|s| - 1]) else s
  }

  function TrimLeftSlash(s: string): string {
    if s != "" && s[0] == '/' then TrimLeftSlash(s[1..]) else s
  }

  function Join(server: string, link: string): string {
    TrimRightSlash(Trim(server)) + "/" + TrimLeftSlash(Trim(link))
  }

  /** PickIndex for the fixed policy. */
  function PickFixed(n: nat, fixed: int): (i: int)
    requires n > 0
    ensures 0 <= i < n
  {
    if 0 <= fixed < n then fixed else 0
  }

  function StableUrl(link: string, proxy: Option<ProxyRef>): string {
    if proxy.None? || proxy.value.servers == [] then Trim(link)
    else
      var p := proxy.value;
      Join(p.servers[if p.policy.Fixed? then PickFixed(|p.servers|, p.fixedIndex) else 0], Trim(link))
  }

  /** Resolve for a fail-over proxy: every server's URL. */
  function ResolveAll(link: string, proxy: ProxyRef): seq<string> {
    if proxy.servers == [] then (if Trim(link) == "" then [] else [Trim(link)])
    else seq(|proxy.servers|, i requires 0 <= i < |proxy.servers| => Join(proxy.servers[i], Trim(link)))
  }

  // ---------------------------------------------------------------- upstreams.go

  /** snapshotProxy keeps the last server with the fixed id. */
  function FixedIndex(servers: seq<Server>, fixedId: string): int {
    if servers == [] then 0
    else if fixedId != "" && servers[|servers| - 1].id == fixedId then |servers| - 1
    else FixedIndex(servers[..|servers| - 1], fixedId)
  }

  /** attachProxyServers: no fixed id means the first server's. */
  function Attached(p: Proxy): Proxy {
    if p.fixedId == "" && p.servers != [] then p.(fixedId := p.servers[0].id) else p
  }

  function Snapshot(p: Proxy): ProxyRef {
    var a := Attached(p);
    ProxyRef(a.policy, seq(|a.servers|, i requires 0 <= i < |a.servers| => a.servers[i].url), FixedIndex(a.servers, a.fixedId))
  }

  function RefOf(proxies: map<string, Proxy>, r: Row): Option<ProxyRef> {
    if r.proxyId != "" && r.proxyId in proxies then Some(Snapshot(proxies[r.proxyId])) else None
  }

  /** ChannelUpstream.StablePrimary. */
  function Stable(proxies: map<string, Proxy>, r: Row): string {
    StableUrl(r.url, RefOf(proxies, r))
  }

  function ResolvedForDedupe(proxies: map<string, Proxy>, r: Row): seq<string> {
    var ref := RefOf(proxies, r);
    if ref.Some? && ref.value.policy.Failover? then ResolveAll(r.url, ref.value) else [StableUrl(r.url, ref)]
  }

  /** UpstreamByID: the first row with the id, or the number of rows. */
  function IndexOfRow(rows: seq<Row>, id: string): (k: nat)
    ensures k <= |rows| && (k < |rows| ==> rows[k].id == id) && forall i :: 0 <= i < k ==> rows[i].id != id
  {
    if rows == [] || rows[0].id == id then 0 else 1 + IndexOfRow(rows[1..], id)
  }

  function FixedIdOf(c: Channel): string {
    if c.fixedId == "" && c.rows != [] then c.rows[0].id else c.fixedId
  }

  /** PrimaryUpstream after attachChannelUpstreams: fixed pick, else first. */
  function Primary(c: Channel): Row {
    var id := Trim(FixedIdOf(c));
    var k := IndexOfRow(c.rows, id);
    if c.policy.Fixed? && id != "" && k < |c.rows| then c.rows[k]
    else if c.rows != [] then c.rows[0]
    else Row("", c.upstreamUrl, "")
  }

  // ---------------------------------------------------------------- invariant

  /** The stored URL is what the rows, the policy, the fixed pick and the proxies give now. */
  predicate PrimaryAgrees(s: Store, c: string)
    requires c in s.channels
  {
    s.channels[c].upstreamUrl == Stable(s.proxies, Primary(s.channels[c]))
  }

  predicate RowsOk(s: Store, c: Channel) {
    && c.rows != []
    && c.fixedId != "" && Trim(c.fixedId) == c.fixedId && IndexOfRow(c.rows, c.fixedId) < |c.rows|
    && forall i :: 0 <= i < |c.rows| ==> c.rows[i].proxyId == "" || c.rows[i].proxyId in s.proxies
  }

  predicate StoreInv(s: Store) {
    forall c :: c in s.channels ==> RowsOk(s, s.channels[c]) && PrimaryAgrees(s, c)
  }

  // ---------------------------------------------------------------- frame facts

  /** A proxy no row of the channel uses can change without touching it. */
  lemma OtherProxy(s: Store, proxies: map<string, Proxy>, c: Channel)
    requires RowsOk(s, c)
    requires forall i :: 0 <= i < |c.rows| && c.rows[i].proxyId != "" ==>
               c.rows[i].proxyId in proxies && proxies[c.rows[i].proxyId] == s.proxies[c.rows[i].proxyId]
    ensures Stable(proxies, Primary(c)) == Stable(s.proxies, Primary(c))
    ensures RowsOk(s.(proxies := proxies), c)
  {
    hide StableUrl, Snapshot, Trim, IndexOfRow;
    var p := Primary(c);
    assert exists i :: 0 <= i < |c.rows| && p == c.rows[i];
  }

  /** Only the primary row's proxy matters. */
  lemma PrimaryProxyDecides(s: Store, proxies: map<string, Proxy>, c: Channel, changed: string)
    requires RowsOk(s, c) && changed in s.proxies && proxies.Keys == s.proxies.Keys
    requires forall p :: p in s.proxies && p != changed ==> proxies[p] == s.proxies[p]
    requires Primary(c).proxyId != changed
    ensures Stable(proxies, Primary(c)) == Stable(s.proxies, Primary(c))
  {
    hide StableUrl, Snapshot, Trim, IndexOfRow;
    var p := Primary(c);
    assert exists i :: 0 <= i < |c.rows| && p == c.rows[i];
  }

  lemma IndexStays(rows: seq<Row>, more: seq<Row>, id: string)
    requires IndexOfRow(rows, id) < |rows|
    ensures IndexOfRow(rows + more, id) == IndexOfRow(rows, id)
  {
    assert (rows + more)[IndexOfRow(rows, id)].id == id;
  }

  /** Appending a row leaves the primary alone. */
  lemma AppendKeepsPrimary(c: Channel, r: Row)
    requires c.rows != [] && c.fixedId != "" && Trim(c.fixedId) == c.fixedId && IndexOfRow(c.rows, c.fixedId) < |c.rows|
    ensures Primary(c.(rows := c.rows + [r])) == Primary(c)
    ensures IndexOfRow(c.rows + [r], c.fixedId) < |c.rows + [r]|
  {
    hide Trim, IndexOfRow;
    IndexStays(c.rows, [r], c.fixedId);
  }
}
