/** What the mutations of the library say about its rows, and which of them enqueue what. */
module LibraryLaws {
  import opened Seqs
  import opened Text
  import opened RelayXml
  import opened Library
  import opened EpgModel

  // ---------------------------------------------------------------- one row after one mutation

  function SourceAfter(before: Option<Source>, m: Mutation, s: int): Option<Source> {
    match m
    case CreateSource(id, src) => if id == s then Some(src.(url := Trim(src.url))) else before
    case UpdateSource(id, src, _) => if id == s then Some(src.(url := Trim(src.url))) else before
    case DeleteSource(id) => if id == s then None else before
    case ImportRelay(_, _, sources, _, _, _, _) => if s in sources then Some(sources[s]) else before
    case Restore(_, sources, _, _) => if s in sources then Some(sources[s]) else None
    case _ => before
  }

  function SlugAfter(before: Option<string>, m: Mutation, r: int): Option<string> {
    match m
    case CreateRelay(id, slug) => if id == r then Some(slug) else before
    case UpdateRelay(id, slug) => if id == r then Some(slug) else before
    case DeleteRelay(id) => if id == r then None else before
    case ImportRelay(id, slug, _, _, _, _, _) => if id == r then Some(slug) else before
    case Restore(slugs, _, _, _) => if r in slugs then Some(slugs[r]) else None
    case _ => before
  }

  /** The pair of a channel, None(the channel is not there) or Some(its pair, if any). */
  function PairAfter(before: Option<Option<Mapping>>, m: Mutation, c: string): Option<Option<Mapping>> {
    match m
    case CreateChannel(id, pair) => if id == c then Some(pair) else before
    case UpdateChannel(id, pair) => if id == c then Some(pair) else before
    case DeleteChannel(id) => if id == c then None else before
    case ImportRelay(_, _, _, channels, fills, _, _) =>
      if c in fills then Some(Some(fills[c])) else if c in channels then Some(channels[c]) else before
    case Restore(_, _, channels, _) => if c in channels then Some(channels[c]) else None
    case _ => before
  }

  /** A deleted relay takes its memberships with it. */
  function MemberAfter(before: Option<Member>, m: Mutation, k: int): Option<Member> {
    match m
    case AddMembership(id, r, c) => if id == k then Some(Member(r, c)) else before
    case UpdateMembership(id, c) => if id == k && before.Some? then Some(Member(before.value.relay, c)) else before
    case DeleteMembership(id) => if id == k then None else before
    case DeleteRelay(r) => if before.Some? && before.value.relay == r then None else before
    case ImportRelay(_, _, _, _, _, members, _) => if k in members then Some(members[k]) else before
    case Restore(_, _, _, members) => if k in members then Some(members[k]) else None
    case _ => before
  }

  // ---------------------------------------------------------------- rows over a run

  function Get<K(==), V>(rows: map<K, V>, k: K): Option<V> {
    if k in rows then Some(rows[k]) else None
  }

  function Slug(relay: Option<Relay>): Option<string> {
    if relay.Some? then Some(relay.value.slug) else None
  }

  function SourceBy(db: Db, es: seq<Event>, s: int): Option<Source> {
    if es == [] then Get(db.sources, s)
    else
      var n := |es| - 1;
      var before := SourceBy(db, es[..n], s);
      if es[n].Mutate? then SourceAfter(before, es[n].m, s) else before
  }

  function SlugBy(db: Db, es: seq<Event>, r: int): Option<string> {
    if es == [] then Slug(Get(db.relays, r))
    else
      var n := |es| - 1;
      var before := SlugBy(db, es[..n], r);
      if es[n].Mutate? then SlugAfter(before, es[n].m, r) else before
  }

  function PairBy(db: Db, es: seq<Event>, c: string): Option<Option<Mapping>> {
    if es == [] then Get(db.channels, c)
    else
      var n := |es| - 1;
      var before := PairBy(db, es[..n], c);
      if es[n].Mutate? then PairAfter(before, es[n].m, c) else before
  }

  function MemberBy(db: Db, es: seq<Event>, k: int): Option<Member> {
    if es == [] then Get(db.members, k)
    else
      var n := |es| - 1;
      var before := MemberBy(db, es[..n], k);
      if es[n].Mutate? then MemberAfter(before, es[n].m, k) else before
  }

  lemma MutationSays(db: Db, m: Mutation, id: int, c: string)
    requires Commits(db, m)
    ensures var db' := Commit(db, m);
            Get(db'.sources, id) == SourceAfter(Get(db.sources, id), m, id)
            && Slug(Get(db'.relays, id)) == SlugAfter(Slug(Get(db.relays, id)), m, id)
            && Get(db'.channels, c) == PairAfter(Get(db.channels, c), m, c)
            && Get(db'.members, id) == MemberAfter(Get(db.members, id), m, id)
  {
    hide PairsOk, MembersOk, Trim, StoredMapping;
  }

  lemma StepRows(w: World, e: Event)
    requires Enabled(w, e)
    ensures Apply(w, e).db == if e.Mutate? then Commit(w.db, e.m) else w.db
  {
    hide Commit, Commits, Derived, Eligible, Mappings, Referencing, StillCurrent, BackingOff, Owned;
  }

  /** After any run each row is what the mutations that named it say: the last one that wrote
      it, unless it was deleted since. */
  lemma {:induction false} RowsFollowEvents(w: World, es: seq<Event>, id: int, c: string)
    requires IsRun(w, es)
    ensures var db := Run(w, es).db;
            Get(db.sources, id) == SourceBy(w.db, es, id) && Slug(Get(db.relays, id)) == SlugBy(w.db, es, id)
            && Get(db.channels, c) == PairBy(w.db, es, c) && Get(db.members, id) == MemberBy(w.db, es, id)
  {
    hide Apply, Enabled, Commit, Commits, SourceAfter, SlugAfter, PairAfter, MemberAfter;
    if es != [] {
      var n := |es| - 1;
      RunLast(w, es);
      RowsFollowEvents(w, es[..n], id, c);
      StepRows(Run(w, es[..n]), es[n]);
      if es[n].Mutate? {
        CommitsIfEnabled(Run(w, es[..n]), es[n].m);
        MutationSays(Run(w, es[..n]).db, es[n].m, id, c);
      }
    }
  }

  lemma CommitsIfEnabled(w: World, m: Mutation)
    requires Enabled(w, Mutate(m))
    ensures Commits(w.db, m)
  {
  }

  /** What a relay's guide is made of: exactly the pairs of the channels it has as members. */
  lemma GuidePairsFollowRows(db: Db, r: int, p: Mapping)
    ensures (p in Mappings(db, r)) == (exists k, c :: Get(db.members, k) == Some(Member(r, c)) && Get(db.channels, c) == Some(Some(p)))
  {
    if p in Mappings(db, r) {
      var k :| k in db.members && db.members[k].relay == r && db.members[k].channel in db.channels
               && db.channels[db.members[k].channel] == Some(p);
      assert Get(db.members, k) == Some(Member(r, db.members[k].channel));
      assert Get(db.channels, db.members[k].channel) == Some(Some(p));
    }
  }

  // ---------------------------------------------------------------- what is enqueued

  /** The mutation leaves the source enabled, and made, enabled or moved it. */
  predicate NeedsRefresh(db: Db, m: Mutation, s: int)
    requires Commits(db, m)
  {
    var db' := Commit(db, m);
    s in db'.sources && db'.sources[s].enabled
    && (m.Restore? || s !in db.sources || !db.sources[s].enabled || Trim(db'.sources[s].url) != Trim(db.sources[s].url))
  }

  /** An update that changes nothing of an enabled source but its interval. */
  predicate NewInterval(db: Db, m: Mutation)
    requires Commits(db, m)
  {
    m.UpdateSource? && m.source.enabled && db.sources[m.id].enabled
    && Trim(m.source.url) == Trim(db.sources[m.id].url) && m.source.interval != db.sources[m.id].interval
  }

  /** Exactly these sources are queued for a refresh. */
  lemma RefreshIsQueuedExactly(db: Db, m: Mutation, s: int)
    requires Commits(db, m)
    ensures (s in Derived(db, m).refresh)
         == (NeedsRefresh(db, m, s) || (m.ImportRelay? && s in m.refresh) || (NewInterval(db, m) && s in m.due && s in db.sources))
  {
    hide Trim, PairsOk, MembersOk, StoredMapping, Owners;
    if m.CreateSource? || m.UpdateSource? {
      UrlTwice(m.source.url);
    }
  }

  /** Exactly the files of sources that are gone, moved or replaced by a restore are deleted,
      and what is known of them is forgotten. */
  lemma FilesAreDeletedExactly(db: Db, m: Mutation, s: int)
    requires Commits(db, m)
    ensures Derived(db, m).invalidate == Derived(db, m).deletes
    ensures var db' := Commit(db, m);
            (s in Derived(db, m).deletes)
            == (s in db.sources && (m.Restore? || s !in db'.sources || Trim(db'.sources[s].url) != Trim(db.sources[s].url)))
  {
    hide Trim, PairsOk, MembersOk, StoredMapping, Owners;
    if m.UpdateSource? {
      UrlTwice(m.source.url);
    }
  }

  /** Exactly the slugs no relay has any more are queued for cleanup, each under the relay
      that had it. */
  lemma SlugIsCleanedExactly(db: Db, m: Mutation, r: int, slug: string)
    requires DbInv(db) && Commits(db, m)
    ensures ((r, slug) in Derived(db, m).cleanups)
         == (r in db.relays && db.relays[r].slug == slug && !Owned(Commit(db, m), slug))
  {
    hide Trim, PairsOk, MembersOk, StoredMapping, Owners;
    var db' := Commit(db, m);
    if r in db'.relays && db'.relays[r].slug == slug {
      RowOwns(db', r);
    }
    if m.Restore? {
      RestoreOwns(db, m, slug);
      assert (r, slug) in Derived(db, m).cleanups <==> r in db.relays && db.relays[r].slug == slug && slug !in m.relaySlugs.Values;
    }
  }

  lemma RestoreOwns(db: Db, m: Mutation, slug: string)
    requires Commits(db, m) && m.Restore?
    ensures Owned(Commit(db, m), slug) <==> slug in m.relaySlugs.Values
  {
    hide PairsOk, MembersOk;
    var db' := Commit(db, m);
    if Owned(db', slug) {
      var q :| q in db'.relays && db'.relays[q].slug == slug;
      assert q in m.relaySlugs && m.relaySlugs[q] == slug;
    }
    if slug in m.relaySlugs.Values {
      var q := KeyOf(m.relaySlugs, slug);
      RowOwns(db', q);
    }
  }

  lemma KeyOf<K, V>(rows: map<K, V>, v: V) returns (k: K)
    requires v in rows.Values
    ensures k in rows && rows[k] == v
  {
    k :| k in rows && rows[k] == v;
  }
}
