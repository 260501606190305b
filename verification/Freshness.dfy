/** The files the guide worker serves are fresh, or known not to be: over every interleaving
    of workflow mutations and worker steps. */
module Freshness {
  import opened Seqs
  import opened RelayXml
  import opened Library
  import opened SourceCache
  import opened EpgModel

  // ---------------------------------------------------------------- what fresh means

  /** The relay's current slug has a file, written by this very relay. */
  predicate Wrote(w: World, r: int) {
    r in w.db.relays && w.db.relays[r].slug in w.xml
    && w.xml[w.db.relays[r].slug].writer == r && w.xml[w.db.relays[r].slug].stamp == w.db.relays[r].stamp
  }

  predicate Needs(w: World, r: int, s: int) {
    exists m :: m in Mappings(w.db, r) && m.source == s
  }

  predicate BeingBuilt(w: World, r: int) {
    w.busy.Building? && w.busy.relay == r && r in w.db.relays && w.busy.stamp == w.db.relays[r].stamp
  }

  /** Queued, being built, or about to be queued by the source just published. */
  predicate Scheduled(w: World, r: int) {
    r in w.q.relays || BeingBuilt(w, r) || (w.busy.Published? && Needs(w, r, w.busy.source))
  }

  predicate Settled(w: World, s: int) {
    Eligible(w.db, w.cache, s) && s !in w.q.deletes
  }

  predicate HasDoc(c: Cache, s: int) {
    s in c.manifests && c.manifests[s].gen in c.gens
  }

  function DocOf(c: Cache, s: int): Doc
    requires HasDoc(c, s)
  {
    c.gens[c.manifests[s].gen].doc
  }

  /** The current generation of every source these pairs need. */
  function Docs(c: Cache, ms: set<Mapping>): map<int, Doc> {
    map s | s in Sources(ms) && HasDoc(c, s) :: DocOf(c, s)
  }

  predicate AllSettled(w: World, ms: set<Mapping>) {
    forall m :: m in ms ==> Settled(w, m.source)
  }

  ghost predicate UpToDate(w: World, r: int)
    requires Wrote(w, r)
  {
    var ms := Mappings(w.db, r);
    Stored(ms) && w.xml[w.db.relays[r].slug].content == Build(ms, Docs(w.cache, ms))
  }

  ghost predicate FreshAt(w: World, r: int) {
    Wrote(w, r) && !Scheduled(w, r) && AllSettled(w, Mappings(w.db, r)) ==> UpToDate(w, r)
  }

  ghost predicate Fresh(w: World) {
    forall r :: r in w.db.relays ==> FreshAt(w, r)
  }

  /** A build in flight works on today's pairs and documents, unless it will be redone. */
  predicate BuildOk(w: World) {
    w.busy.Building? && BeingBuilt(w, w.busy.relay) && w.busy.relay !in w.q.relays ==>
      w.busy.slug == w.db.relays[w.busy.relay].slug
      && w.busy.ms == Mappings(w.db, w.busy.relay)
      && forall s :: s in w.busy.docs && Settled(w, s) ==> HasDoc(w.cache, s) && w.busy.docs[s] == DocOf(w.cache, s)
  }

  /** Nothing carries a stamp that a later relay could get; files on disk are of generations
      that were written. */
  predicate Housekeeping(w: World) {
    && DbInv(w.db)
    && ManifestsOk(w.cache)
    && (forall slug :: slug in w.xml ==> w.xml[slug].stamp < w.db.stamp)
    && (w.busy.Building? ==> w.busy.stamp < w.db.stamp && Stored(w.busy.ms) && w.busy.docs.Keys <= Sources(w.busy.ms))
  }

  ghost predicate FreshInv(w: World) {
    Housekeeping(w) && (CanEnqueue(w.q) ==> Fresh(w) && BuildOk(w))
  }

  // ---------------------------------------------------------------- frame

  /** For the pairs ms, w' can only have fewer settled sources, with the same documents. */
  predicate NoNews(w: World, w': World, ms: set<Mapping>) {
    forall m :: m in ms && Settled(w', m.source) ==>
      Settled(w, m.source) && HasDoc(w.cache, m.source) && HasDoc(w'.cache, m.source)
      && DocOf(w'.cache, m.source) == DocOf(w.cache, m.source)
  }

  lemma FreshStays(w: World, w': World, r: int)
    requires r in w.db.relays && FreshAt(w, r)
    requires Untouched(w.db, w'.db, r)
    requires Wrote(w', r) ==> Wrote(w, r) && w'.xml[w.db.relays[r].slug] == w.xml[w.db.relays[r].slug]
    requires Scheduled(w, r) ==> Scheduled(w', r)
    requires NoNews(w, w', Mappings(w.db, r))
    ensures FreshAt(w', r)
  {
    hide Settled, Scheduled, Mappings, Stored, Build;
    var ms := Mappings(w.db, r);
    if Wrote(w', r) && !Scheduled(w', r) && AllSettled(w', ms) {
      SameDocs(w, w', ms);
    }
  }

  lemma SameDocs(w: World, w': World, ms: set<Mapping>)
    requires NoNews(w, w', ms) && AllSettled(w', ms)
    ensures AllSettled(w, ms) && Docs(w'.cache, ms) == Docs(w.cache, ms)
  {
    hide Settled;
    forall s | s in Sources(ms) ensures HasDoc(w.cache, s) && HasDoc(w'.cache, s) && DocOf(w'.cache, s) == DocOf(w.cache, s) {
      var m :| m in ms && m.source == s;
    }
  }

  /** Eligible sources have a document. */
  lemma EligibleHasDoc(w: World, s: int)
    requires Housekeeping(w) && Eligible(w.db, w.cache, s)
    ensures HasDoc(w.cache, s)
  {
    hide DbInv, Url;
  }

  lemma BuildStays(w: World, w': World)
    requires BuildOk(w) && w'.busy == w.busy
    requires w.busy.Building? ==>
               w.q.relays <= w'.q.relays
               && (BeingBuilt(w', w.busy.relay) ==>
                     BeingBuilt(w, w.busy.relay)
                     && (w.busy.relay in w'.q.relays || Untouched(w.db, w'.db, w.busy.relay)))
               && w.busy.docs.Keys <= Sources(w.busy.ms)
               && NoNews(w, w', Mappings(w.db, w.busy.relay))
    ensures BuildOk(w')
  {
    hide Settled, Mappings;
    if w.busy.Building? && BeingBuilt(w', w.busy.relay) && w.busy.relay !in w'.q.relays {
      forall s | s in w.busy.docs && Settled(w', s)
        ensures HasDoc(w'.cache, s) && w.busy.docs[s] == DocOf(w'.cache, s)
      {
        assert s in Sources(w.busy.ms);
        var m :| m in w.busy.ms && m.source == s;
      }
    }
  }

  // ---------------------------------------------------------------- steps that change no data

  predicate SameFiles(c: Cache, c': Cache) {
    c'.manifests == c.manifests && c'.gens == c.gens && c'.live == c.live && c'.next == c.next
  }

  predicate InFlight(b: Busy) {
    b.Building? || b.Published?
  }

  /** Nothing freshness depends on moves, except that queues grow and files may go. */
  predicate Calm(w: World, w': World) {
    && w'.db == w.db && SameFiles(w.cache, w'.cache)
    && (forall slug :: slug in w'.xml ==> slug in w.xml && w'.xml[slug] == w.xml[slug])
    && w.q.deletes <= w'.q.deletes && w.q.relays <= w'.q.relays
    && (w'.busy == w.busy || (!InFlight(w.busy) && !InFlight(w'.busy)))
    && (CanEnqueue(w'.q) ==> CanEnqueue(w.q))
  }

  lemma CalmSources(w: World, w': World, ms: set<Mapping>)
    requires Housekeeping(w) && Calm(w, w')
    ensures NoNews(w, w', ms)
  {
    forall m | m in ms && Settled(w', m.source)
      ensures Settled(w, m.source) && HasDoc(w.cache, m.source) && HasDoc(w'.cache, m.source)
              && DocOf(w'.cache, m.source) == DocOf(w.cache, m.source)
    {
      EligibleHasDoc(w, m.source);
    }
  }

  lemma CalmKeeps(w: World, w': World)
    requires FreshInv(w) && Calm(w, w')
    ensures FreshInv(w')
  {
    hide DbInv, Mappings, NoNews, CanEnqueue, FreshAt;
    if CanEnqueue(w'.q) {
      forall r | r in w'.db.relays ensures FreshAt(w', r) {
        CalmSources(w, w', Mappings(w.db, r));
        FreshStays(w, w', r);
      }
      if w'.busy.Building? {
        CalmSources(w, w', Mappings(w.db, w.busy.relay));
        BuildStays(w, w');
      }
    }
  }

  /** The steps that are calm. */
  predicate IsCalm(w: World, e: Event) {
    match e
    case Acquire => true
    case Release => true
    case CloseAdmission => true
    case Tick(_) => true
    case RequestRefresh(_) => true
    case RequestRebuild(_) => true
    case TakeSource(s) => s in w.db.sources
    case CancelSource => true
    case FinishFetch(result, _) => w.busy.Fetching? && (result.None? || !StillCurrent(w))
    case TakeCleanup(_) => true
    case CleanSlug(_) => true
    case FinishCleanup => true
    case OpenLookup(_, _) => true
    case LoadLookup(_, _) => true
    case StoreLookup(_) => true
    case _ => false
  }

  /** Of these, the ones that touch nothing but the index cache or the cleanups. */
  predicate IsSideStep(e: Event) {
    e.TakeCleanup? || e.CleanSlug? || e.FinishCleanup? || e.OpenLookup? || e.LoadLookup? || e.StoreLookup?
  }

  lemma SideSteps(w: World, e: Event)
    requires Enabled(w, e) && IsSideStep(e)
    ensures Calm(w, Apply(w, e))
  {
    if e.TakeCleanup? || e.CleanSlug? || e.FinishCleanup? {
      CleanupSteps(w, e);
    } else {
      LookupSteps(w, e);
    }
  }

  lemma CleanupSteps(w: World, e: Event)
    requires Enabled(w, e) && (e.TakeCleanup? || e.CleanSlug? || e.FinishCleanup?)
    ensures Calm(w, Apply(w, e))
  {
    hide Owned;
  }

  lemma LookupSteps(w: World, e: Event)
    requires Enabled(w, e) && (e.OpenLookup? || e.LoadLookup? || e.StoreLookup?)
    ensures Calm(w, Apply(w, e))
  {
    hide Url, Usable, TagFits, IsIndexOf, InFlight;
  }

  lemma CalmSteps(w: World, e: Event)
    requires Enabled(w, e) && IsCalm(w, e)
    ensures Calm(w, Apply(w, e))
  {
    if IsSideStep(e) {
      SideSteps(w, e);
    } else {
      OtherCalmSteps(w, e);
    }
  }

  lemma OtherCalmSteps(w: World, e: Event)
    requires Enabled(w, e) && IsCalm(w, e) && !IsSideStep(e)
    ensures Calm(w, Apply(w, e))
  {
    hide Url, Usable, TagFits, IsIndexOf, StillCurrent, BackingOff, AddCleanups, Commits, Owned, Derived;
  }

  // ---------------------------------------------------------------- mutations

  lemma MutateSources(w: World, m: Mutation, r: int)
    requires Housekeeping(w) && Enabled(w, Mutate(m)) && CanEnqueue(w.q)
    requires Untouched(w.db, Commit(w.db, m), r)
    ensures NoNews(w, Apply(w, Mutate(m)), Mappings(w.db, r))
  {
    var w' := Apply(w, Mutate(m));
    CommitEffect(w.db, m);
    SourcesEffect(w.db, m);
    assert SameFiles(w.cache, w'.cache);
    hide Commit, Derived, Commits, AddCleanups, Bumped;
    forall p | p in Mappings(w.db, r) && Settled(w', p.source)
      ensures Settled(w, p.source) && HasDoc(w.cache, p.source) && HasDoc(w'.cache, p.source)
              && DocOf(w'.cache, p.source) == DocOf(w.cache, p.source)
    {
      assert p.source in w.db.sources;
      assert Eligible(w.db, w.cache, p.source);
      EligibleHasDoc(w, p.source);
    }
  }

  /** What a mutation does to the rest of the world. */
  lemma MutateEffect(w: World, m: Mutation)
    requires Housekeeping(w) && Enabled(w, Mutate(m))
    ensures var w' := Apply(w, Mutate(m));
            w'.db == Commit(w.db, m) && SameFiles(w.cache, w'.cache) && w'.xml == w.xml && w'.busy == w.busy
            && w.q.relays <= w'.q.relays && w'.q.admitOpen == w.q.admitOpen && w'.q.held == w.q.held
            && Housekeeping(w')
    ensures var w' := Apply(w, Mutate(m));
            CanEnqueue(w.q) ==> forall r :: r in w'.db.relays ==>
              r in w'.q.relays || Untouched(w.db, w'.db, r) || w'.db.relays[r].stamp == w.db.stamp
  {
    CommitEffect(w.db, m);
    hide Commit, Derived, Commits, AddCleanups, Bumped, Mappings, PairsOk, MembersOk;
  }

  lemma MutateKeeps(w: World, m: Mutation)
    requires FreshInv(w) && Enabled(w, Mutate(m))
    ensures FreshInv(Apply(w, Mutate(m)))
  {
    MutateEffect(w, m);
    hide Commits, Mappings, Housekeeping, Apply, FreshAt, NoNews;
    var w' := Apply(w, Mutate(m));
    if CanEnqueue(w'.q) {
      forall r | r in w'.db.relays ensures FreshAt(w', r) {
        MutateFresh(w, m, r);
      }
      MutateBuild(w, m);
    }
  }

  lemma MutateFresh(w: World, m: Mutation, r: int)
    requires FreshInv(w) && Enabled(w, Mutate(m)) && CanEnqueue(w.q) && r in Apply(w, Mutate(m)).db.relays
    ensures FreshAt(Apply(w, Mutate(m)), r)
  {
    var w' := Apply(w, Mutate(m));
    MutateEffect(w, m);
    hide Commits, Mappings, Apply, DbInv, ManifestsOk, UpToDate, AllSettled, NoNews, CanEnqueue, Enabled, BuildOk;
    if r in w'.q.relays {
    } else if Untouched(w.db, w'.db, r) {
      MutateSources(w, m, r);
      FreshStays(w, w', r);
    } else {
      assert !Wrote(w', r);
    }
  }

  lemma MutateBuild(w: World, m: Mutation)
    requires FreshInv(w) && Enabled(w, Mutate(m)) && CanEnqueue(w.q)
    ensures BuildOk(Apply(w, Mutate(m)))
  {
    var w' := Apply(w, Mutate(m));
    MutateEffect(w, m);
    hide Commits, Mappings, Apply, DbInv, ManifestsOk, FreshAt, NoNews, CanEnqueue, Enabled, Settled;
    if w'.busy.Building? && BeingBuilt(w', w'.busy.relay) && w'.busy.relay !in w'.q.relays {
      assert Untouched(w.db, w'.db, w.busy.relay);
      MutateSources(w, m, w.busy.relay);
      BuildStays(w, w');
    }
  }

  // ---------------------------------------------------------------- worker steps on sources

  /** Taking a source's files away settles nothing. */
  lemma WipeKeeps(w: World, w': World, s: int)
    requires FreshInv(w) && w.busy.Idle?
    requires w'.db == w.db && w'.xml == w.xml && w'.busy == w.busy && w'.cache == Wipe(w.cache, s)
    requires w.q.deletes - {s} <= w'.q.deletes && w.q.relays <= w'.q.relays && (CanEnqueue(w'.q) ==> CanEnqueue(w.q))
    ensures FreshInv(w')
  {
    hide DbInv, Mappings, CanEnqueue, FreshAt;
    forall r | CanEnqueue(w'.q) && r in w'.db.relays ensures FreshAt(w', r) {
      WipeSources(w, w', s, Mappings(w.db, r));
      hide NoNews;
      FreshStays(w, w', r);
    }
  }

  lemma WipeSources(w: World, w': World, s: int, ms: set<Mapping>)
    requires Housekeeping(w) && w'.db == w.db && w'.cache == Wipe(w.cache, s)
    requires w.q.deletes - {s} <= w'.q.deletes
    ensures NoNews(w, w', ms)
  {
    hide Url, DbInv;
    forall m | m in ms && Settled(w', m.source)
      ensures Settled(w, m.source) && HasDoc(w.cache, m.source) && HasDoc(w'.cache, m.source)
              && DocOf(w'.cache, m.source) == DocOf(w.cache, m.source)
    {
      EligibleHasDoc(w, m.source);
    }
  }

  /** A published generation schedules every relay that needs it. */
  lemma PublishKeeps(w: World, result: Option<Doc>, channels: seq<ChannelInfo>)
    requires FreshInv(w) && Enabled(w, FinishFetch(result, channels)) && result.Some? && StillCurrent(w)
    ensures FreshInv(Apply(w, FinishFetch(result, channels)))
  {
    hide DbInv, Mappings, CanEnqueue, FreshAt, IsIndexOf, StillCurrent, Url, Housekeeping;
    PublishHousekeeping(w, result, channels);
    var w' := Apply(w, FinishFetch(result, channels));
    forall r | CanEnqueue(w'.q) && r in w'.db.relays ensures FreshAt(w', r) {
      PublishFresh(w, result.value, channels, r);
    }
  }

  lemma PublishFresh(w: World, doc: Doc, channels: seq<ChannelInfo>, r: int)
    requires Housekeeping(w) && w.busy.Fetching? && StillCurrent(w) && r in w.db.relays && FreshAt(w, r)
    ensures FreshAt(FinishFetchStep(w, Some(doc), channels), r)
  {
    var w' := FinishFetchStep(w, Some(doc), channels);
    hide DbInv, Mappings, FreshAt, IsIndexOf, Url, Housekeeping;
    if !Needs(w', r, w.busy.source) {
      PublishSources(w, w', Mappings(w.db, r), w.db.sources[w.busy.source].url, w.busy.url, doc, channels);
      hide NoNews, Needs, Settled;
      FreshStays(w, w', r);
    } else {
      ScheduledIsFresh(w', r);
    }
  }

  lemma PublishHousekeeping(w: World, result: Option<Doc>, channels: seq<ChannelInfo>)
    requires Housekeeping(w) && Enabled(w, FinishFetch(result, channels)) && result.Some? && StillCurrent(w)
    ensures Housekeeping(Apply(w, FinishFetch(result, channels)))
    ensures w.busy.source in w.db.sources
  {
    hide DbInv, Mappings, IsIndexOf, Url;
  }

  lemma ScheduledIsFresh(w: World, r: int)
    requires Scheduled(w, r)
    ensures FreshAt(w, r)
  {
  }

  lemma PublishSources(w: World, w': World, ms: set<Mapping>, url: string, from: string, doc: Doc, channels: seq<ChannelInfo>)
    requires Housekeeping(w) && w.busy.Fetching? && forall m :: m in ms ==> m.source != w.busy.source
    requires w'.db == w.db && w'.q == w.q
    requires w'.cache == SourceCache.Publish(w.cache, w.busy.source, url, from, doc, channels)
    ensures NoNews(w, w', ms)
  {
    hide Url, DbInv;
    forall m | m in ms && Settled(w', m.source)
      ensures Settled(w, m.source) && HasDoc(w.cache, m.source) && HasDoc(w'.cache, m.source)
              && DocOf(w'.cache, m.source) == DocOf(w.cache, m.source)
    {
      EligibleHasDoc(w, m.source);
    }
  }

  /** relaysReferencingSource finds every relay that needs the source. */
  lemma NeedsReferenced(w: World, r: int, s: int)
    requires Needs(w, r, s)
    ensures r in Referencing(w.db, s)
  {
    var p :| p in Mappings(w.db, r) && p.source == s;
    var k :| k in w.db.members && w.db.members[k].relay == r && w.db.members[k].channel in w.db.channels
             && w.db.channels[w.db.members[k].channel] == Some(p);
  }

  lemma FinishSourceKeeps(w: World)
    requires FreshInv(w) && w.busy.Published?
    ensures FreshInv(Apply(w, FinishSource))
  {
    hide Mappings, FreshAt, Referencing, AddCleanups, PairsOk, MembersOk;
    var w' := Apply(w, FinishSource);
    forall r | CanEnqueue(w'.q) && r in w'.db.relays ensures FreshAt(w', r) {
      if Needs(w, r, w.busy.source) {
        NeedsReferenced(w, r, w.busy.source);
        ScheduledIsFresh(w', r);
      } else {
        FinishSources(w, w', Mappings(w.db, r));
        hide NoNews, Needs, Settled, Housekeeping;
        FreshStays(w, w', r);
      }
    }
  }

  lemma FinishSources(w: World, w': World, ms: set<Mapping>)
    requires Housekeeping(w) && w'.db == w.db && SameFiles(w.cache, w'.cache) && w.q.deletes == w'.q.deletes
    ensures NoNews(w, w', ms)
  {
    hide Url, DbInv;
    forall m | m in ms && Settled(w', m.source)
      ensures Settled(w, m.source) && HasDoc(w.cache, m.source) && HasDoc(w'.cache, m.source)
              && DocOf(w'.cache, m.source) == DocOf(w.cache, m.source)
    {
      EligibleHasDoc(w, m.source);
    }
  }

  // ---------------------------------------------------------------- worker steps on relays

  lemma TakeRelayKeeps(w: World, r: int)
    requires FreshInv(w) && Enabled(w, TakeRelay(r))
    ensures FreshInv(Apply(w, TakeRelay(r)))
  {
    hide Mappings, FreshAt, Build;
    var w' := Apply(w, TakeRelay(r));
    assert Stored(Mappings(w.db, r)) by {
      PairsStored(w.db, r);
    }
    forall q | CanEnqueue(w'.q) && q in w'.db.relays ensures FreshAt(w', q) {
      if q == r {
        ScheduledIsFresh(w', q);
      } else {
        FinishSources(w, w', Mappings(w.db, q));
        hide NoNews, Settled, Housekeeping;
        FreshStays(w, w', q);
      }
    }
  }

  lemma LoadDocKeeps(w: World, s: int)
    requires FreshInv(w) && Enabled(w, LoadDoc(s)) && Eligible(w.db, w.cache, s)
    ensures FreshInv(Apply(w, LoadDoc(s)))
  {
    EligibleHasDoc(w, s);
    LoadedBuildOk(w, s);
    hide Mappings, FreshAt, DbInv, Url, Usable, ManifestsOk, BuildOk, CanEnqueue, Build;
    var w' := Apply(w, LoadDoc(s));
    forall r | CanEnqueue(w'.q) && r in w'.db.relays ensures FreshAt(w', r) {
      LoadedFresh(w, s, r);
    }
  }

  lemma LoadedFresh(w: World, s: int, r: int)
    requires Housekeeping(w) && Enabled(w, LoadDoc(s)) && Eligible(w.db, w.cache, s) && HasDoc(w.cache, s)
    requires r in w.db.relays && FreshAt(w, r)
    ensures FreshAt(Apply(w, LoadDoc(s)), r)
  {
    var w' := Apply(w, LoadDoc(s));
    hide Mappings, FreshAt, NoNews, Settled, Housekeeping, Eligible;
    FinishSources(w, w', Mappings(w.db, r));
    FreshStays(w, w', r);
  }

  lemma LoadedBuildOk(w: World, s: int)
    requires Enabled(w, LoadDoc(s)) && Eligible(w.db, w.cache, s) && HasDoc(w.cache, s)
    ensures BuildOk(w) ==> BuildOk(Apply(w, LoadDoc(s)))
  {
    hide Mappings, Eligible, CanEnqueue;
  }

  /** An abandoned build leaves a needed source unsettled, or the relay queued. */
  lemma AbandonKeeps(w: World, s: int)
    requires FreshInv(w) && Enabled(w, LoadDoc(s)) && !Eligible(w.db, w.cache, s)
    ensures FreshInv(Apply(w, LoadDoc(s)))
  {
    hide Mappings, FreshAt, DbInv, Url, Usable, ManifestsOk;
    var w' := Apply(w, LoadDoc(s));
    forall r | CanEnqueue(w'.q) && r in w'.db.relays ensures FreshAt(w', r) {
      if BeingBuilt(w, r) && r !in w.q.relays {
        AbandonedIsUnsettled(w, s);
      } else {
        FinishSources(w, w', Mappings(w.db, r));
        hide NoNews, Settled, Housekeeping, Eligible;
        FreshStays(w, w', r);
      }
    }
  }

  lemma AbandonedIsUnsettled(w: World, s: int)
    requires BuildOk(w) && Enabled(w, LoadDoc(s)) && !Eligible(w.db, w.cache, s)
    requires BeingBuilt(w, w.busy.relay) && w.busy.relay !in w.q.relays
    ensures FreshAt(Apply(w, LoadDoc(s)), w.busy.relay)
  {
    hide Mappings, Eligible;
    var w' := Apply(w, LoadDoc(s));
    var m :| m in w.busy.ms && m.source == s;
    assert !Settled(w', m.source);
  }

  lemma WriteRelayKeeps(w: World)
    requires FreshInv(w) && Enabled(w, WriteRelay)
    ensures FreshInv(Apply(w, WriteRelay))
  {
    hide Mappings, FreshAt, Build, PairsOk, MembersOk;
    var w' := Apply(w, WriteRelay);
    forall r | CanEnqueue(w'.q) && r in w'.db.relays ensures FreshAt(w', r) {
      if r in w.q.relays {
        ScheduledIsFresh(w', r);
      } else if BeingBuilt(w, r) {
        WrittenIsFresh(w);
      } else {
        FinishSources(w, w', Mappings(w.db, r));
        hide NoNews, Settled;
        FreshStays(w, w', r);
      }
    }
  }

  /** The file just written is the build from today's pairs and documents. */
  lemma WrittenIsFresh(w: World)
    requires Housekeeping(w) && BuildOk(w) && Enabled(w, WriteRelay)
    requires BeingBuilt(w, w.busy.relay) && w.busy.relay !in w.q.relays
    ensures FreshAt(Apply(w, WriteRelay), w.busy.relay)
  {
    hide Mappings, Build, DbInv, ManifestsOk, StoredMapping, Eligible;
    var w' := Apply(w, WriteRelay);
    assert w'.db == w.db && w'.cache == w.cache && w'.q == w.q;
    var ms := w.busy.ms;
    if AllSettled(w', ms) {
      forall s | s in Sources(ms) ensures HasDoc(w.cache, s) && w.busy.docs[s] == DocOf(w.cache, s) {
        var m :| m in ms && m.source == s;
        assert Settled(w', m.source) && Settled(w, s);
      }
      assert Docs(w'.cache, ms) == w.busy.docs;
    }
  }

  // ---------------------------------------------------------------- every step, every run

  lemma StepKeeps(w: World, e: Event)
    requires FreshInv(w) && Enabled(w, e)
    ensures FreshInv(Apply(w, e))
  {
    if IsCalm(w, e) {
      CalmSteps(w, e);
      CalmKeeps(w, Apply(w, e));
    } else {
      hide FreshInv, StillCurrent, Eligible;
      match e
      case Mutate(m) => MutateKeeps(w, m);
      case TakeDelete(s) => WipeKeeps(w, Apply(w, e), s);
      case TakeSource(s) => WipeKeeps(w, Apply(w, e), s);
      case FinishFetch(result, channels) => PublishKeeps(w, result, channels);
      case FinishSource => FinishSourceKeeps(w);
      case TakeRelay(r) => TakeRelayKeeps(w, r);
      case LoadDoc(s) =>
        if Eligible(w.db, w.cache, s) {
          LoadDocKeeps(w, s);
        } else {
          AbandonKeeps(w, s);
        }
      case WriteRelay => WriteRelayKeeps(w);
    }
  }

  lemma {:induction false} RunKeeps(w: World, es: seq<Event>)
    requires FreshInv(w) && IsRun(w, es)
    ensures FreshInv(Run(w, es))
    decreases |es|
  {
    hide FreshInv, Apply, Enabled;
    if es != [] {
      StepKeeps(w, es[0]);
      RunKeeps(Apply(w, es[0]), es[1..]);
    }
  }

  lemma InitIsFresh(db: Db)
    requires DbInv(db)
    ensures FreshInv(Init(db))
  {
    hide DbInv, Mappings;
  }

  /** In every reachable state in which work is still taken, a relay whose current file it
      wrote itself is queued or being worked on, or serves exactly the build from today's pairs
      and generations, or needs a source that is ineligible or queued for deletion. */
  lemma FreshInEveryRun(db: Db, es: seq<Event>, r: int)
    requires DbInv(db) && IsRun(Init(db), es)
    ensures var w := Run(Init(db), es);
            CanEnqueue(w.q) && Wrote(w, r) ==>
              Scheduled(w, r) || UpToDate(w, r)
              || exists m :: m in Mappings(w.db, r) && (!Eligible(w.db, w.cache, m.source) || m.source in w.q.deletes)
  {
    InitIsFresh(db);
    RunKeeps(Init(db), es);
    hide Run, IsRun, Mappings, UpToDate, Scheduled, Eligible;
  }

  /** Once the worker is idle with nothing to delete or build, only ineligible sources excuse
      a file that is not current. */
  lemma QuiescentIsFresh(w: World, r: int)
    requires FreshInv(w) && CanEnqueue(w.q) && w.busy.Idle? && w.q.relays == {} && w.q.deletes == {}
    requires Wrote(w, r) && forall m :: m in Mappings(w.db, r) ==> Eligible(w.db, w.cache, m.source)
    ensures UpToDate(w, r)
  {
    hide Mappings, UpToDate, Eligible;
  }

  /** Every file a relay wrote itself is current, as far as the needed sources are eligible. */
  ghost predicate AllCurrent(w: World) {
    forall r :: Wrote(w, r) && (forall m :: m in Mappings(w.db, r) ==> Eligible(w.db, w.cache, m.source)) ==> UpToDate(w, r)
  }

  /** So a drain that was not cancelled, begun in any reachable state, leaves every such file
      current. */
  lemma DrainedIsFresh(w0: World, es: seq<Event>, w: World)
    requires FreshInv(w0) && Leads(w0, es, w)
    ensures FreshInv(w)
    ensures CanEnqueue(w.q) && w.busy.Idle? && w.q.relays == {} && w.q.deletes == {} ==> AllCurrent(w)
  {
    RunKeeps(w0, es);
    hide Wrote, Mappings, UpToDate, Eligible, FreshInv, CanEnqueue;
    if CanEnqueue(w.q) && w.busy.Idle? && w.q.relays == {} && w.q.deletes == {} {
      forall r | Wrote(w, r) && forall m :: m in Mappings(w.db, r) ==> Eligible(w.db, w.cache, m.source)
        ensures UpToDate(w, r)
      {
        QuiescentIsFresh(w, r);
      }
    }
  }

  /** Reachable states are such states. */
  lemma FreshInvInEveryRun(db: Db, es: seq<Event>, w: World)
    requires DbInv(db) && Leads(Init(db), es, w)
    ensures FreshInv(w)
  {
    InitIsFresh(db);
    RunKeeps(Init(db), es);
  }
}
