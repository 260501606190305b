/** What the stored URL of a channel is, said of its rows and proxies alone, and what the names
    of policies mean. */
module ChannelUrls {
  import opened Seqs
  import opened Text
  import opened ChannelModel
  import opened ChannelStore

  // ---------------------------------------------------------------- joining

  predicate Slashes(s: string) {
    forall i :: 0 <= i < |s| ==> s[i] == '/'
  }

  /** The server without trailing slashes, one slash, and the link without leading ones. */
  ghost predicate IsJoined(url: string, server: string, link: string) {
    exists a: string, b: string :: IsJoinedOf(url, server, link, a, b)
  }

  predicate IsJoinedOf(url: string, server: string, link: string, a: string, b: string) {
    && url == a + "/" + b
    && a <= Trim(server) && Slashes(Trim(server)[|a|..]) && (a != "" ==> a[|a| - 1] != '/')
    && |b| <= |Trim(link)| && b == Trim(link)[|Trim(link)| - |b|..] && Slashes(Trim(link)[..|Trim(link)| - |b|])
    && (b != "" ==> b[0] != '/')
  }

  lemma {:induction false} RightSlashes(s: string)
    ensures var a := TrimRightSlash(s); a <= s && Slashes(s[|a|..]) && (a != "" ==> a[|a| - 1] != '/')
  {
    if s != "" && s[|s| - 1] == '/' {
      var t := s[..|s| - 1];
      RightSlashes(t);
      assert s[|TrimRightSlash(t)|..] == t[|TrimRightSlash(t)|..] + ['/'];
    }
  }

  lemma {:induction false} LeftSlashes(s: string)
    ensures var b := TrimLeftSlash(s);
            |b| <= |s| && b == s[|s| - |b|..] && Slashes(s[..|s| - |b|]) && (b != "" ==> b[0] != '/')
  {
    if s != "" && s[0] == '/' {
      var t := s[1..];
      LeftSlashes(t);
      var n := |t| - |TrimLeftSlash(t)|;
      assert s[..n + 1] == ['/'] + t[..n] && s[n + 1..] == t[n..];
    }
  }

  lemma JoinIsJoined(server: string, link: string)
    ensures IsJoined(Join(server, Trim(link)), server, link)
  {
    TrimTwice(link);
    hide Trim;
    RightSlashes(Trim(server));
    LeftSlashes(Trim(link));
    assert IsJoinedOf(Join(server, Trim(link)), server, link, TrimRightSlash(Trim(server)), TrimLeftSlash(Trim(link)));
  }

  // ---------------------------------------------------------------- one row

  /** The server that proxy p stands for: the pick under the fixed policy, the last one of that
      id if several have it, or the first server when there is no such pick; the first one
      under any other policy. */
  predicate IsPicked(p: Proxy, k: nat)
    requires p.servers != []
  {
    k < |p.servers|
    && if p.policy.Fixed? && p.fixedId != "" && HasServer(p.servers, p.fixedId)
       then p.servers[k].id == p.fixedId && forall i :: k < i < |p.servers| ==> p.servers[i].id != p.fixedId
       else if p.policy.Fixed? && p.fixedId == ""
       then p.servers[k].id == p.servers[0].id
       else k == 0
  }

  /** The URL of a row: its link, behind the server its proxy stands for if it has one. */
  ghost predicate IsUrlOf(proxies: map<string, Proxy>, r: Row, url: string) {
    if r.proxyId != "" && r.proxyId in proxies && proxies[r.proxyId].servers != []
    then
      var p := proxies[r.proxyId];
      exists k: nat :: IsPicked(p, k) && IsJoined(url, p.servers[k].url, r.url)
    else url == Trim(r.url)
  }

  lemma {:induction false} LastPick(servers: seq<Server>, id: string)
    ensures var k := FixedIndex(servers, id);
            0 <= k && (k < |servers| || servers == [])
            && (id != "" && HasServer(servers, id) ==> k < |servers| && servers[k].id == id && forall i :: k < i < |servers| ==> servers[i].id != id)
            && (id == "" || !HasServer(servers, id) ==> k == 0)
  {
    if servers != [] {
      var n := |servers| - 1;
      LastPick(servers[..n], id);
      if HasServer(servers, id) && servers[n].id != id {
        var j :| 0 <= j < |servers| && servers[j].id == id;
        assert servers[..n][j].id == id;
      }
      if HasServer(servers[..n], id) {
        var j :| 0 <= j < n && servers[..n][j].id == id;
        assert servers[j].id == id;
      }
    }
  }

  lemma PickedServer(p: Proxy)
    requires p.servers != []
    ensures var ref := Snapshot(p); var k := if ref.policy.Fixed? then PickFixed(|ref.servers|, ref.fixedIndex) else 0;
            |ref.servers| == |p.servers| && k < |p.servers| && IsPicked(p, k) && ref.servers[k] == p.servers[k].url
  {
    var id := if p.fixedId == "" then p.servers[0].id else p.fixedId;
    LastPick(p.servers, id);
    assert HasServer(p.servers, p.servers[0].id);
    hide FixedIndex, HasServer;
  }

  /** The URL the code derives from a row is that one. */
  lemma StableIsUrlOf(proxies: map<string, Proxy>, r: Row)
    ensures IsUrlOf(proxies, r, Stable(proxies, r))
  {
    if r.proxyId != "" && r.proxyId in proxies && proxies[r.proxyId].servers != [] {
      var p := proxies[r.proxyId];
      PickedServer(p);
      var ref := Snapshot(p);
      var k := if ref.policy.Fixed? then PickFixed(|ref.servers|, ref.fixedIndex) else 0;
      JoinIsJoined(p.servers[k].url, r.url);
      hide Snapshot, Trim, IsJoined, Join, IsPicked;
    } else {
      hide Trim;
      NoServersNoRef(proxies, r);
    }
  }

  lemma NoServersNoRef(proxies: map<string, Proxy>, r: Row)
    requires !(r.proxyId != "" && r.proxyId in proxies && proxies[r.proxyId].servers != [])
    ensures RefOf(proxies, r).None? || RefOf(proxies, r).value.servers == []
  {
  }

  // ---------------------------------------------------------------- every stored channel

  /** Row k is the first with the channel's fixed pick. */
  predicate IsPick(c: Channel, k: nat) {
    k < |c.rows| && c.rows[k].id == c.fixedId && forall i :: 0 <= i < k ==> c.rows[i].id != c.fixedId
  }

  /** In every committed state the stored URL of a channel is that of its fixed pick under the
      fixed policy, and that of its first row under any other. */
  lemma StoredUrlIs(s: ChannelModel.Store, id: string)
    requires StoreInv(s) && id in s.channels
    ensures var c := s.channels[id];
            c.rows != []
            && (c.policy.Fixed? ==> exists k: nat :: IsPick(c, k) && IsUrlOf(s.proxies, c.rows[k], c.upstreamUrl))
            && (!c.policy.Fixed? ==> IsUrlOf(s.proxies, c.rows[0], c.upstreamUrl))
  {
    var c := s.channels[id];
    PrimaryRow(s, c);
    StableIsUrlOf(s.proxies, Primary(c));
    assert PrimaryAgrees(s, id);
    hide Primary, Stable, IsUrlOf, RowsOk;
  }

  lemma PrimaryRow(s: ChannelModel.Store, c: Channel)
    requires RowsOk(s, c)
    ensures c.rows != []
    ensures c.policy.Fixed? ==> exists k: nat :: IsPick(c, k) && Primary(c) == c.rows[k]
    ensures !c.policy.Fixed? ==> Primary(c) == c.rows[0]
  {
    hide Trim;
    var k := IndexOfRow(c.rows, c.fixedId);
    assert IsPick(c, k);
  }

  /** All URLs a row can stand for: under a fail-over proxy, its link behind each server. */
  lemma ResolvedUrls(proxies: map<string, Proxy>, r: Row)
    ensures var urls := ResolvedForDedupe(proxies, r);
            if r.proxyId != "" && r.proxyId in proxies && proxies[r.proxyId].policy.Failover? && proxies[r.proxyId].servers != []
            then
              |urls| == |proxies[r.proxyId].servers|
              && forall k :: 0 <= k < |urls| ==> IsJoined(urls[k], proxies[r.proxyId].servers[k].url, r.url)
            else if r.proxyId != "" && r.proxyId in proxies && proxies[r.proxyId].policy.Failover? && Trim(r.url) == ""
            then urls == []
            else |urls| == 1 && IsUrlOf(proxies, r, urls[0])
  {
    StableIsUrlOf(proxies, r);
    if r.proxyId != "" && r.proxyId in proxies {
      var p := proxies[r.proxyId];
      forall k | 0 <= k < |p.servers| ensures IsJoined(Join(p.servers[k].url, Trim(r.url)), p.servers[k].url, r.url) {
        JoinIsJoined(p.servers[k].url, r.url);
      }
      hide IsJoined, Join, IsPicked, FixedIndex;
      TrimTwice(r.url);
      hide Trim;
    }
  }

  // ---------------------------------------------------------------- policies

  /** What each name of a policy means; letter case and surrounding spaces do not matter. */
  lemma PolicyNames(raw: string, allowFallback: bool)
    ensures var p, r := LowerAscii(Trim(raw)), ParsePolicy(raw, allowFallback);
            (r == Some(Fixed) <==> p == "" || p == "fixed") && (r == Some(Random) <==> p == "random")
            && (r == Some(Failover) <==> p == "failover" || (allowFallback && p == "fallback"))
  {
    assert |"fixed"| == 5 && |"random"| == 6 && |"failover"| == 8 && |"fallback"| == 8;
    assert "failover"[2] != "fallback"[2];
  }
}
