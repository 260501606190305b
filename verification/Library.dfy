/** The tables behind the guide, the workflow mutations on them, and the derived work each
    mutation enqueues (internal/core/workflows/workflows.go and the store it calls). */
module Library {
  import opened Seqs
  import opened Text
  import opened RelayXml

  /** `stamp` tells incarnations apart: a restore can give a new relay an old id. */
  datatype Relay = Relay(slug: string, stamp: nat)

  /** The interval in seconds. */
  datatype Source = Source(url: string, enabled: bool, interval: nat)

  datatype Member = Member(relay: int, channel: string)

  datatype Db = Db(
    relays: map<int, Relay>, sources: map<int, Source>,
    channels: map<string, Option<Mapping>>,   // the complete EPG pair, if any
    members: map<int, Member>, stamp: nat)

  /** normalizeSourceURL. */
  function Url(raw: string): string {
    Trim(raw)
  }

  /** ListAllRelayEPGMappings for one relay. */
  function Mappings(db: Db, relay: int): set<Mapping> {
    set m | m in db.members && db.members[m].relay == relay
            && db.members[m].channel in db.channels && db.channels[db.members[m].channel].Some?
         :: db.channels[db.members[m].channel].value
  }

  /** ChannelRelayIDs. */
  function Owners(db: Db, channels: set<string>): set<int> {
    set m | m in db.members && db.members[m].channel in channels :: db.members[m].relay
  }

  predicate PairsOk(channels: map<string, Option<Mapping>>, sources: set<int>) {
    forall c :: c in channels && channels[c].Some? ==>
      StoredMapping(channels[c].value) && channels[c].value.source in sources
  }

  predicate MembersOk(members: map<int, Member>, relays: set<int>, channels: set<string>) {
    && (forall m :: m in members ==> members[m].relay in relays && members[m].channel in channels)
    && forall m, n :: m in members && n in members && members[m] == members[n] ==> m == n
  }

  predicate SlugsOk(relays: map<int, Relay>) {
    && (forall r :: r in relays ==> r > 0 && relays[r].slug != "")
    && forall r, q :: r in relays && q in relays && relays[r].slug == relays[q].slug ==> r == q
  }

  /** Foreign keys, unique indexes, and complete pairs as the store writes them. */
  predicate DbInv(db: Db) {
    && SlugsOk(db.relays)
    && (forall r :: r in db.relays ==> db.relays[r].stamp < db.stamp)
    && PairsOk(db.channels, db.sources.Keys)
    && MembersOk(db.members, db.relays.Keys, db.channels.Keys)
  }

  // ---------------------------------------------------------------- mutations

  datatype Mutation =
    | CreateSource(id: int, source: Source)
    | UpdateSource(id: int, source: Source, due: set<int>)
    | DeleteSource(id: int)
    | CreateRelay(relay: int, slug: string)
    | UpdateRelay(relay: int, slug: string)
    | DeleteRelay(relay: int)
    | CreateChannel(channel: string, pair: Option<Mapping>)
    | UpdateChannel(channel: string, pair: Option<Mapping>)
    | DeleteChannel(channel: string)
    | AddMembership(member: int, relay: int, channel: string)
    | UpdateMembership(member: int, channel: string)
    | DeleteMembership(member: int)
    | ImportRelay(relay: int, slug: string, newSources: map<int, Source>, newChannels: map<string, Option<Mapping>>,
                  fills: map<string, Mapping>, newMembers: map<int, Member>, refresh: set<int>)
    | Restore(relaySlugs: map<int, string>, newSources: map<int, Source>,
              newChannels: map<string, Option<Mapping>>, newMembers: map<int, Member>)

  /** Which mutations go through withAdmission. */
  predicate NeedsAdmission(m: Mutation) {
    !m.CreateRelay? && !m.CreateChannel? && !m.UpdateChannel? && !m.DeleteChannel?
  }

  predicate SlugFree(db: Db, slug: string, except: set<int>) {
    slug != "" && forall r :: r in db.relays && r !in except ==> db.relays[r].slug != slug
  }

  predicate PairOk(db: Db, pair: Option<Mapping>) {
    pair.Some? ==> StoredMapping(pair.value) && pair.value.source in db.sources
  }

  /** validateEPGSourceInput, as far as the guide depends on it: there is a URL. */
  predicate SourceOk(source: Source) {
    Url(source.url) != ""
  }

  predicate ImportOk(db: Db, m: Mutation)
    requires m.ImportRelay?
  {
    && m.relay > 0 && m.relay !in db.relays && SlugFree(db, m.slug, {})
    && m.newSources.Keys !! db.sources.Keys && (forall s :: s in m.newSources ==> s > 0 && SourceOk(m.newSources[s]))
    && m.newSources.Keys <= m.refresh <= db.sources.Keys + m.newSources.Keys
    && m.newChannels.Keys !! db.channels.Keys
    && PairsOk(m.newChannels, db.sources.Keys + m.newSources.Keys)
    && (forall c :: c in m.fills ==> c in db.channels && db.channels[c].None?
                                     && StoredMapping(m.fills[c]) && m.fills[c].source in db.sources.Keys + m.newSources.Keys)
    && m.newMembers.Keys !! db.members.Keys
    && (forall k :: k in m.newMembers ==> m.newMembers[k].relay == m.relay)
    && MembersOk(m.newMembers, {m.relay}, db.channels.Keys + m.newChannels.Keys)
  }

  /** The mutation passes validation and commits. */
  predicate Commits(db: Db, m: Mutation) {
    match m
    case CreateSource(id, src) => id > 0 && id !in db.sources && SourceOk(src)
    case UpdateSource(id, src, _) => id in db.sources && SourceOk(src)
    case DeleteSource(id) =>
      id in db.sources && forall c :: c in db.channels && db.channels[c].Some? ==> db.channels[c].value.source != id
    case CreateRelay(r, slug) => r > 0 && r !in db.relays && SlugFree(db, slug, {})
    case UpdateRelay(r, slug) => r in db.relays && SlugFree(db, slug, {r})
    case DeleteRelay(r) => r in db.relays
    case CreateChannel(c, pair) => c !in db.channels && PairOk(db, pair)
    case UpdateChannel(c, pair) => c in db.channels && PairOk(db, pair)
    case DeleteChannel(c) => c in db.channels && forall k :: k in db.members ==> db.members[k].channel != c
    case AddMembership(k, r, c) =>
      k !in db.members && r in db.relays && c in db.channels
      && forall n :: n in db.members ==> db.members[n] != Member(r, c)
    case UpdateMembership(k, c) =>
      k in db.members && c in db.channels
      && forall n :: n in db.members && n != k ==> db.members[n] != Member(db.members[k].relay, c)
    case DeleteMembership(k) => k in db.members
    case ImportRelay(_, _, _, _, _, _, _) => ImportOk(db, m)
    case Restore(slugs, sources, channels, members) =>
      (forall r :: r in slugs ==> r > 0 && slugs[r] != "")
      && (forall r, q :: r in slugs && q in slugs && slugs[r] == slugs[q] ==> r == q)
      && (forall s :: s in sources ==> SourceOk(sources[s]))
      && PairsOk(channels, sources.Keys) && MembersOk(members, slugs.Keys, channels.Keys)
  }

  function Commit(db: Db, m: Mutation): Db
    requires Commits(db, m)
  {
    match m
    case CreateSource(id, src) => db.(sources := db.sources[id := src.(url := Url(src.url))])
    case UpdateSource(id, src, _) => db.(sources := db.sources[id := src.(url := Url(src.url))])
    case DeleteSource(id) => db.(sources := db.sources - {id})
    case CreateRelay(r, slug) => db.(relays := db.relays[r := Relay(slug, db.stamp)], stamp := db.stamp + 1)
    case UpdateRelay(r, slug) => db.(relays := db.relays[r := db.relays[r].(slug := slug)])
    case DeleteRelay(r) =>
      db.(relays := db.relays - {r},
          members := map k | k in db.members && db.members[k].relay != r :: db.members[k])
    case CreateChannel(c, pair) => db.(channels := db.channels[c := pair])
    case UpdateChannel(c, pair) => db.(channels := db.channels[c := pair])
    case DeleteChannel(c) => db.(channels := db.channels - {c})
    case AddMembership(k, r, c) => db.(members := db.members[k := Member(r, c)])
    case UpdateMembership(k, c) => db.(members := db.members[k := Member(db.members[k].relay, c)])
    case DeleteMembership(k) => db.(members := db.members - {k})
    case ImportRelay(r, slug, sources, channels, fills, members, _) =>
      Db(db.relays[r := Relay(slug, db.stamp)], db.sources + sources,
         (map c | c in db.channels.Keys + channels.Keys ::
            if c in fills then Some(fills[c]) else if c in channels then channels[c] else db.channels[c]),
         db.members + members, db.stamp + 1)
    case Restore(slugs, sources, channels, members) =>
      Db(map r | r in slugs :: Relay(slugs[r], db.stamp), sources, channels, members, db.stamp + 1)
  }

  // ---------------------------------------------------------------- derived work

  datatype Work = Work(invalidate: set<int>, deletes: set<int>, refresh: set<int>, rebuild: set<int>, cleanups: set<(int, string)>)

  const NO_WORK := Work({}, {}, {}, {}, {})

  /** What each workflow hands to ApplyDerivedWork. `due` stands for the sources that
      EnqueueRefreshDue finds due when an interval changed. */
  function Derived(db: Db, m: Mutation): Work
    requires Commits(db, m)
  {
    match m
    case CreateSource(id, src) => NO_WORK.(refresh := if src.enabled then {id} else {})
    case UpdateSource(id, src, due) =>
      var before := db.sources[id];
      if Url(before.url) != Url(src.url) then
        Work({id}, {id}, if src.enabled then {id} else {}, {}, {})
      else if !before.enabled && src.enabled then NO_WORK.(refresh := {id})
      else if before.interval != src.interval && src.enabled then NO_WORK.(refresh := due * db.sources.Keys)
      else NO_WORK
    case DeleteSource(id) => Work({id}, {id}, {}, {}, {})
    case UpdateRelay(r, slug) =>
      if db.relays[r].slug != slug then Work({}, {}, {}, {r}, {(r, db.relays[r].slug)}) else NO_WORK
    case DeleteRelay(r) => NO_WORK.(cleanups := {(r, db.relays[r].slug)})
    case UpdateChannel(c, pair) => if db.channels[c] != pair then NO_WORK.(rebuild := Owners(db, {c})) else NO_WORK
    case AddMembership(_, r, c) => if db.channels[c].Some? then NO_WORK.(rebuild := {r}) else NO_WORK
    case UpdateMembership(k, c) =>
      if db.members[k].channel in db.channels && db.channels[db.members[k].channel] == db.channels[c] then NO_WORK
      else NO_WORK.(rebuild := {db.members[k].relay})
    case DeleteMembership(k) =>
      if db.members[k].channel in db.channels && db.channels[db.members[k].channel].None? then NO_WORK
      else NO_WORK.(rebuild := {db.members[k].relay})
    case ImportRelay(r, _, _, _, fills, _, refresh) =>
      NO_WORK.(rebuild := {r} + Owners(db, fills.Keys), refresh := refresh)
    case Restore(slugs, sources, _, _) =>
      Work(db.sources.Keys, db.sources.Keys, set s | s in sources && sources[s].enabled :: s, slugs.Keys,
           set r | r in db.relays && db.relays[r].slug !in slugs.Values :: (r, db.relays[r].slug))
    case _ => NO_WORK
  }

  // ---------------------------------------------------------------- what a mutation can do

  /** Relay r is, after a mutation, what it was before, as far as its guide is concerned. */
  predicate Untouched(db: Db, db': Db, r: int) {
    r in db.relays && r in db'.relays && db.relays[r] == db'.relays[r] && Mappings(db, r) == Mappings(db', r)
  }

  lemma CommitKeepsSources(db: Db, m: Mutation)
    requires DbInv(db) && Commits(db, m) && (m.CreateSource? || m.UpdateSource? || m.DeleteSource?)
    ensures DbInv(Commit(db, m))
    ensures forall r :: r in db.relays ==> Untouched(db, Commit(db, m), r)
    ensures Commit(db, m).relays == db.relays
  {
  }

  lemma CommitKeepsRelays(db: Db, m: Mutation)
    requires DbInv(db) && Commits(db, m) && (m.CreateRelay? || m.UpdateRelay? || m.DeleteRelay?)
    ensures DbInv(Commit(db, m))
    ensures forall r :: r in Commit(db, m).relays && r != m.relay ==> Untouched(db, Commit(db, m), r)
  {
    var db' := Commit(db, m);
    forall r | r in db'.relays && r != m.relay ensures Untouched(db, db', r) {
      SameMembers(db, db', r);
    }
  }

  /** A relay whose memberships and channels stay has the same pairs. */
  lemma SameMembers(db: Db, db': Db, r: int)
    requires db.channels == db'.channels
    requires forall k :: k in db.members && db.members[k].relay == r ==> k in db'.members && db'.members[k] == db.members[k]
    requires forall k :: k in db'.members && db'.members[k].relay == r ==> k in db.members && db'.members[k] == db.members[k]
    ensures Mappings(db, r) == Mappings(db', r)
  {
    forall p ensures p in Mappings(db, r) <==> p in Mappings(db', r) {
      if p in Mappings(db, r) {
        var k :| k in db.members && db.members[k].relay == r && db.members[k].channel in db.channels
                 && db.channels[db.members[k].channel] == Some(p);
        assert k in db'.members && db'.members[k].channel in db'.channels;
      }
      if p in Mappings(db', r) {
        var k :| k in db'.members && db'.members[k].relay == r && db'.members[k].channel in db'.channels
                 && db'.channels[db'.members[k].channel] == Some(p);
        assert k in db.members && db.members[k].channel in db.channels;
      }
    }
  }

  lemma CommitKeepsChannels(db: Db, m: Mutation)
    requires DbInv(db) && Commits(db, m) && (m.CreateChannel? || m.UpdateChannel? || m.DeleteChannel?)
    ensures DbInv(Commit(db, m))
    ensures forall r :: r in db.relays ==> r in Derived(db, m).rebuild || Untouched(db, Commit(db, m), r)
    ensures Commit(db, m).relays == db.relays
  {
    var db' := Commit(db, m);
    forall r | r in db.relays && r !in Derived(db, m).rebuild ensures Untouched(db, db', r) {
      forall k | k in db.members && db.members[k].relay == r
        ensures db'.members[k].channel in db'.channels
                && db'.channels[db'.members[k].channel] == db.channels[db.members[k].channel]
      {
      }
      assert Mappings(db, r) == Mappings(db', r);
    }
  }

  lemma CommitKeepsMembers(db: Db, m: Mutation)
    requires DbInv(db) && Commits(db, m) && (m.AddMembership? || m.UpdateMembership? || m.DeleteMembership?)
    ensures DbInv(Commit(db, m))
    ensures forall r :: r in db.relays ==> r in Derived(db, m).rebuild || Untouched(db, Commit(db, m), r)
    ensures Commit(db, m).relays == db.relays
  {
    var db' := Commit(db, m);
    forall r | r in db.relays && r !in Derived(db, m).rebuild ensures Untouched(db, db', r) {
      forall p ensures p in Mappings(db, r) <==> p in Mappings(db', r) {
        MemberMapping(db, m, r, p);
      }
      assert Mappings(db, r) == Mappings(db', r);
    }
  }

  /** A membership change that enqueues nothing leaves the relay's pairs alone. */
  lemma MemberMapping(db: Db, m: Mutation, r: int, p: Mapping)
    requires DbInv(db) && Commits(db, m) && (m.AddMembership? || m.UpdateMembership? || m.DeleteMembership?)
    requires r in db.relays && r !in Derived(db, m).rebuild
    ensures p in Mappings(db, r) <==> p in Mappings(Commit(db, m), r)
  {
    var db' := Commit(db, m);
    if p in Mappings(db, r) {
      var k :| k in db.members && db.members[k].relay == r && db.channels[db.members[k].channel] == Some(p);
      assert k in db'.members && db'.channels[db'.members[k].channel] == Some(p);
    }
    if p in Mappings(db', r) {
      var k :| k in db'.members && db'.members[k].relay == r && db'.channels[db'.members[k].channel] == Some(p);
      assert k in db.members && db.channels[db.members[k].channel] == Some(p);
    }
  }

  lemma ImportKeeps(db: Db, m: Mutation)
    requires DbInv(db) && m.ImportRelay? && Commits(db, m)
    ensures DbInv(Commit(db, m))
  {
    var db' := Commit(db, m);
    forall k, n | k in db'.members && n in db'.members && db'.members[k] == db'.members[n] ensures k == n {
    }
  }

  lemma ImportTouches(db: Db, m: Mutation)
    requires DbInv(db) && m.ImportRelay? && Commits(db, m)
    ensures forall r :: r in db.relays ==> r in Derived(db, m).rebuild || Untouched(db, Commit(db, m), r)
    ensures Commit(db, m).relays.Keys == db.relays.Keys + {m.relay}
  {
    var db' := Commit(db, m);
    forall r | r in db.relays && r !in Derived(db, m).rebuild ensures Untouched(db, db', r) {
      forall p ensures p in Mappings(db, r) <==> p in Mappings(db', r) {
        if p in Mappings(db, r) {
          var k :| k in db.members && db.members[k].relay == r && db.channels[db.members[k].channel] == Some(p);
          assert k in db'.members && db'.channels[db'.members[k].channel] == Some(p);
        }
        if p in Mappings(db', r) {
          var k :| k in db'.members && db'.members[k].relay == r && db'.channels[db'.members[k].channel] == Some(p);
          assert k in db.members;
          assert db.members[k].channel !in m.fills;
        }
      }
      assert Mappings(db, r) == Mappings(db', r);
    }
  }

  lemma RestoreKeeps(db: Db, m: Mutation)
    requires m.Restore? && Commits(db, m)
    ensures DbInv(Commit(db, m))
    ensures Commit(db, m).relays.Keys == Derived(db, m).rebuild
  {
  }

  /** Every mutation keeps the tables sound, and every relay it does not rebuild is either
      untouched or new. */
  lemma CommitEffect(db: Db, m: Mutation)
    requires DbInv(db) && Commits(db, m)
    ensures DbInv(Commit(db, m)) && db.stamp <= Commit(db, m).stamp
    ensures forall r :: r in Commit(db, m).relays ==>
              r in Derived(db, m).rebuild || Untouched(db, Commit(db, m), r)
              || Commit(db, m).relays[r].stamp == db.stamp
  {
    hide DbInv, Mappings, Owners;
    if m.CreateSource? || m.UpdateSource? || m.DeleteSource? {
      CommitKeepsSources(db, m);
    } else if m.CreateRelay? || m.UpdateRelay? || m.DeleteRelay? {
      CommitKeepsRelays(db, m);
      if m.UpdateRelay? && db.relays[m.relay].slug == m.slug {
        assert Commit(db, m).relays == db.relays;
      }
    } else if m.CreateChannel? || m.UpdateChannel? || m.DeleteChannel? {
      CommitKeepsChannels(db, m);
    } else if m.ImportRelay? {
      ImportKeeps(db, m);
      ImportTouches(db, m);
    } else if m.Restore? {
      RestoreKeeps(db, m);
    } else {
      CommitKeepsMembers(db, m);
    }
  }

  /** A source that survives a mutation keeps its URL, or its files are queued for deletion. */
  lemma SourcesEffect(db: Db, m: Mutation)
    requires Commits(db, m)
    ensures forall s :: s in db.sources && s in Commit(db, m).sources ==>
              s in Derived(db, m).deletes || Url(Commit(db, m).sources[s].url) == Url(db.sources[s].url)
  {
    hide Url;
    if m.UpdateSource? {
      UrlTwice(m.source.url);
    }
  }

  lemma UrlTwice(raw: string)
    ensures Url(Url(raw)) == Url(raw)
  {
    TrimIsTrimmed(raw);
  }

  /** A relay that survives a mutation keeps its slug, or the old one is queued for cleanup. */
  lemma SlugsEffect(db: Db, m: Mutation)
    requires DbInv(db) && Commits(db, m)
    ensures forall r :: r in db.relays && r in Commit(db, m).relays && Commit(db, m).relays[r].stamp == db.relays[r].stamp ==>
              Commit(db, m).relays[r].slug == db.relays[r].slug || (r, db.relays[r].slug) in Derived(db, m).cleanups
  {
    hide Owners, PairsOk, MembersOk, Url;
  }

  /** A surviving relay keeps its stamp; new ones get the next. */
  lemma CommitStamps(db: Db, m: Mutation)
    requires DbInv(db) && Commits(db, m)
    ensures forall r :: r in Commit(db, m).relays ==>
              Commit(db, m).relays[r].stamp == db.stamp
              || (r in db.relays && Commit(db, m).relays[r].stamp == db.relays[r].stamp)
  {
    hide Owners, PairsOk, MembersOk, Url;
  }

  lemma PairsStored(db: Db, r: int)
    requires DbInv(db)
    ensures Stored(Mappings(db, r))
    ensures forall m :: m in Mappings(db, r) ==> m.source in db.sources
  {
    hide SlugsOk, MembersOk, StoredMapping;
  }
}
