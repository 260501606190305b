/** What else every run of the guide worker keeps: the index cache, owned files, admission,
    back-off. */
module WorkerRuns {
  import opened Seqs
  import opened RelayXml
  import opened Library
  import opened SourceCache
  import opened EpgModel

  // ---------------------------------------------------------------- the index cache

  /** The cache is sound, and so is the tag the worker is about to store. */
  predicate IndexInv(w: World) {
    CacheInv(w.cache)
    && (w.busy.Published? ==> TagOk(w.cache, w.busy.source, Tag(w.busy.url, w.busy.gen, w.busy.channels)))
  }

  lemma SameGenerations(w: World, w': World)
    requires IndexInv(w) && CacheInv(w'.cache) && w'.busy == w.busy
    requires w'.cache.gens == w.cache.gens
    ensures IndexInv(w')
  {
    hide IsIndexOf, Url, CacheInv;
  }

  lemma IndexWorkerStep(w: World, e: Event)
    requires IndexInv(w) && Enabled(w, e) && (e.TakeDelete? || e.TakeSource? || e.FinishFetch? || e.FinishSource?)
    ensures IndexInv(Apply(w, e))
  {
    hide IsIndexOf, Url, CacheInv, SetTag, Referencing, AddCleanups;
    match e
    case TakeDelete(s) => WipeKeeps(w.cache, s);
    case TakeSource(s) => WipeKeeps(w.cache, s);
    case FinishFetch(result, channels) =>
      if result.Some? && StillCurrent(w) {
        hide Publish, TagOk;
        PublishKeeps(w.cache, w.busy.source, w.db.sources[w.busy.source].url, w.busy.url, result.value, channels);
      }
    case FinishSource => SetTagKeeps(w.cache, w.busy.source, Tag(w.busy.url, w.busy.gen, w.busy.channels));
  }

  lemma IndexLookupStep(w: World, e: Event)
    requires IndexInv(w) && Enabled(w, e) && (e.Mutate? || e.OpenLookup? || e.LoadLookup? || e.StoreLookup?)
    ensures IndexInv(Apply(w, e))
  {
    hide IsIndexOf, Url, CacheInv, Derived, Commit, Commits, TagOk;
    match e {
      case Mutate(m) => ForgetKeeps(w.cache, Derived(w.db, m).invalidate + Derived(w.db, m).deletes);
      case OpenLookup(t, s) => OpenKeeps(w.cache, t, s, w.db.sources[s].url);
      case LoadLookup(t, channels) => LoadKeeps(w.cache, t, channels);
      case StoreLookup(t) => StoreKeeps(w.cache, t);
    }
    SameGenerations(w, Apply(w, e));
  }

  lemma IndexStep(w: World, e: Event)
    requires IndexInv(w) && Enabled(w, e)
    ensures IndexInv(Apply(w, e))
  {
    if e.TakeDelete? || e.TakeSource? || e.FinishFetch? || e.FinishSource? {
      IndexWorkerStep(w, e);
    } else if e.Mutate? || e.OpenLookup? || e.LoadLookup? || e.StoreLookup? {
      IndexLookupStep(w, e);
    } else {
      hide CacheInv, TagOk, AddCleanups, Owned, Eligible, Mappings;
    }
  }

  lemma {:induction false} IndexRun(w: World, es: seq<Event>)
    requires IndexInv(w) && IsRun(w, es)
    ensures IndexInv(Run(w, es))
    decreases |es|
  {
    hide IndexInv, Apply, Enabled;
    if es != [] {
      IndexStep(w, es[0]);
      IndexRun(Apply(w, es[0]), es[1..]);
    }
  }

  /** Whatever was published, deleted, invalidated or repaired meanwhile, an answer of
      eligibleSource carries the generation its manifest named, the URL asked for, and the
      channels of the document fetched from that URL for that generation. */
  lemma IndexAnswersInEveryRun(db: Db, es: seq<Event>, t: nat, tag: Tag)
    requires IsRun(Init(db), es) && Answers(Run(Init(db), es).cache, t, tag)
    ensures var c := Run(Init(db), es).cache; var l := c.lookups[t];
            tag.gen == l.gen && tag.url == l.url
            && l.gen in c.gens && c.gens[l.gen].source == l.source && Url(c.gens[l.gen].url) == l.url
            && IsIndexOf(tag.channels, c.gens[l.gen].doc)
  {
    IndexRun(Init(db), es);
    hide Run, IsRun, IsIndexOf, TagOk, CacheInv;
    AnswerFitsGeneration(Run(Init(db), es).cache, t, tag);
  }

  /** What an eligible source serves was fetched from the URL the source has now. */
  lemma EligibleIsFromCurrentUrl(w: World, s: int)
    requires IndexInv(w) && Eligible(w.db, w.cache, s)
    ensures var g := w.cache.manifests[s].gen;
            g in w.cache.gens && w.cache.gens[g].source == s
            && Url(w.cache.gens[g].url) == Url(w.db.sources[s].url)
  {
    hide IsIndexOf, Url;
  }

  // ---------------------------------------------------------------- owned files

  /** Only a cleanup removes a file, and never one whose slug a live relay owns. */
  lemma OwnedFileStays(w: World, e: Event, slug: string)
    requires Enabled(w, e) && slug in w.xml && Owned(w.db, slug)
    ensures slug in Apply(w, e).xml
  {
    hide Owned, Derived, Commit, Commits, AddCleanups, Referencing, Eligible, Build;
  }

  /** A relay owns the slug in every state of the run. */
  ghost predicate AlwaysOwned(w: World, es: seq<Event>, slug: string)
    requires IsRun(w, es)
    decreases |es|
  {
    Owned(w.db, slug) && (es != [] ==> AlwaysOwned(Apply(w, es[0]), es[1..], slug))
  }

  lemma {:induction false} OwnedFileStaysInRun(w: World, es: seq<Event>, slug: string)
    requires IsRun(w, es) && slug in w.xml && AlwaysOwned(w, es, slug)
    ensures slug in Run(w, es).xml
    decreases |es|
  {
    hide Apply, Enabled, Owned;
    if es != [] {
      OwnedFileStays(w, es[0], slug);
      OwnedFileStaysInRun(Apply(w, es[0]), es[1..], slug);
    }
  }

  // ---------------------------------------------------------------- a relay keeps some file

  /** Slugs of the relay's that wait for cleanup, those the worker is going through included. */
  function Awaiting(w: World, r: int): set<string>
    requires r in w.db.relays
  {
    Waiting(w.q.cleanups, r) + if CleaningFor(w, r) then w.busy.todo + w.busy.left else {}
  }

  predicate CleaningFor(w: World, r: int)
    requires r in w.db.relays
  {
    w.busy.Cleaning? && w.busy.relay == r && w.busy.row.Some? && w.busy.row.value.stamp == w.db.relays[r].stamp
  }

  /** The relay is served from its slug, or an old file of its still waits for cleanup. */
  predicate HasFile(w: World, r: int)
    requires r in w.db.relays
  {
    w.db.relays[r].slug in w.xml || exists s :: s in Awaiting(w, r) && s in w.xml
  }

  /** Of all the files that serve the relay or wait for its cleanup, this one is left. */
  predicate OnlyFile(w: World, r: int, slug: string)
    requires r in w.db.relays
  {
    HasFile(w, r) && forall s :: s in w.xml && (s == w.db.relays[r].slug || s in Awaiting(w, r)) ==> s == slug
  }

  /** processCleanup gets past its checks and removes the file. */
  predicate Removes(w: World, slug: string)
    requires w.busy.Cleaning?
  {
    !Owned(w.db, slug)
    && (w.busy.row.Some? ==> w.busy.row.value.slug != slug && w.busy.row.value.slug in w.xml)
  }

  /** When the cleanup of a slug takes relay r's last file: it is done for another relay and
      removes the file, or it is r's own and drops a slug that another relay has by now. */
  predicate TakesLastFile(w: World, slug: string, r: int)
    requires r in w.db.relays && w.busy.Cleaning?
  {
    OnlyFile(w, r, slug)
    && if CleaningFor(w, r)
       then slug != w.db.relays[r].slug && Owned(w.db, slug) && slug !in Waiting(w.q.cleanups, r)
       else Removes(w, slug)
  }

  /** The row the worker read still has the relay's slug, or that slug waits for cleanup too. */
  predicate CleaningOk(w: World) {
    w.busy.Cleaning? && w.busy.relay in w.db.relays && CleaningFor(w, w.busy.relay) ==>
      w.db.relays[w.busy.relay].slug == w.busy.row.value.slug
      || (w.busy.relay in w.q.cleanups && w.busy.row.value.slug in w.q.cleanups[w.busy.relay].slugs)
  }

  /** What waits for cleanup is not blank, and waits under a positive id. */
  predicate NoBlanks(w: World) {
    (forall r :: r in w.q.cleanups ==> r > 0 && "" !in w.q.cleanups[r].slugs)
    && (w.busy.Cleaning? ==> w.busy.relay > 0 && "" !in w.busy.todo && "" !in w.busy.left && w.busy.todo !! w.busy.left)
  }

  predicate CleanupInv(w: World) {
    DbInv(w.db) && CleaningOk(w) && NoBlanks(w)
    && (w.busy.Cleaning? && w.busy.row.Some? ==> w.busy.row.value.stamp < w.db.stamp)
  }

  predicate SameRelay(w: World, w': World, r: int) {
    r in w.db.relays && r in w'.db.relays && w'.db.relays[r].stamp == w.db.relays[r].stamp
  }

  lemma AddedCleanups(cleanups: map<int, Cleanup>, more: set<(int, string)>)
    ensures var all := AddCleanups(cleanups, more);
            (forall r :: r in cleanups ==> r in all && cleanups[r].slugs <= all[r].slugs)
            && (forall c :: c in more && c.0 > 0 && c.1 != "" ==> c.0 in all && c.1 in all[c.0].slugs)
            && forall r :: r in all ==> (r > 0 || r in cleanups) && ("" in all[r].slugs ==> r in cleanups && "" in cleanups[r].slugs)
  {
  }

  lemma MutateKeepsFile(w: World, m: Mutation, r: int)
    requires CleanupInv(w) && Enabled(w, Mutate(m)) && SameRelay(w, Apply(w, Mutate(m)), r)
    ensures HasFile(w, r) ==> HasFile(Apply(w, Mutate(m)), r)
  {
    var w' := Apply(w, Mutate(m));
    SlugsEffect(w.db, m);
    AddedCleanups(w.q.cleanups, Derived(w.db, m).cleanups);
    hide Commit, Commits, Derived, AddCleanups, Bumped, PairsOk, MembersOk;
    if w'.db.relays[r].slug != w.db.relays[r].slug {
      assert w.db.relays[r].slug in Awaiting(w', r);
    }
    assert Awaiting(w, r) <= Awaiting(w', r);
  }

  /** What the worker read of the relay is still its slug, or waits for cleanup as well. */
  lemma KeptRow(w: World, r: int)
    requires CleaningOk(w) && r in w.db.relays && CleaningFor(w, r)
    ensures w.busy.row.value.slug == w.db.relays[r].slug || w.busy.row.value.slug in Waiting(w.q.cleanups, r)
  {
  }

  /** Done for another relay, the cleanup of a slug can only remove the file. */
  lemma ForeignCleanup(w: World, slug: string, r: int)
    requires CleanupInv(w) && Enabled(w, CleanSlug(slug)) && r in w.db.relays && HasFile(w, r) && !CleaningFor(w, r)
    ensures !HasFile(Apply(w, CleanSlug(slug)), r) <==> TakesLastFile(w, slug, r)
  {
    hide PairsOk, MembersOk, Owned;
    var w' := Apply(w, CleanSlug(slug));
    assert Awaiting(w', r) == Awaiting(w, r) && w'.db == w.db;
    assert w'.xml == if Removes(w, slug) then w.xml - {slug} else w.xml;
  }

  /** Done for the relay itself, it drops the slug, keeps it waiting, or removes the file
      while the relay has another. */
  lemma OwnCleanup(w: World, slug: string, r: int)
    requires CleanupInv(w) && Enabled(w, CleanSlug(slug)) && r in w.db.relays && HasFile(w, r) && CleaningFor(w, r)
    ensures !HasFile(Apply(w, CleanSlug(slug)), r) <==> TakesLastFile(w, slug, r)
  {
    hide PairsOk, MembersOk, SlugsOk;
    var w' := Apply(w, CleanSlug(slug));
    var waiting := Waiting(w.q.cleanups, r);
    if Owned(w.db, slug) {
      assert Awaiting(w', r) == waiting + (w.busy.todo - {slug}) + w.busy.left;
    } else {
      RowOwns(w.db, r);
      KeptRow(w, r);
      KeepsAFile(w, slug, r);
    }
  }

  lemma KeepsAFile(w: World, slug: string, r: int)
    requires w.busy.Cleaning? && slug in w.busy.todo && r in w.db.relays && HasFile(w, r) && CleaningFor(w, r)
    requires slug != "" && !Owned(w.db, slug) && slug != w.db.relays[r].slug
    requires w.busy.row.value.slug == w.db.relays[r].slug || w.busy.row.value.slug in Waiting(w.q.cleanups, r)
    ensures HasFile(CleanSlugStep(w, slug), r)
  {
    hide Owned;
    var w' := CleanSlugStep(w, slug);
    var own := w.busy.row.value.slug;
    if own != slug && own in w.xml {
      assert own in w'.xml && (own == w'.db.relays[r].slug || own in Awaiting(w', r));
    } else {
      assert Awaiting(w, r) <= Awaiting(w', r);
    }
  }

  /** All other steps leave cleanups alone and remove no file. */
  lemma OtherSteps(w: World, e: Event)
    requires Enabled(w, e) && !e.Mutate? && !e.TakeCleanup? && !e.CleanSlug? && !e.FinishCleanup?
    ensures var w' := Apply(w, e);
            w'.db == w.db && w'.q.cleanups == w.q.cleanups && w.xml.Keys <= w'.xml.Keys
            && (w.busy.Cleaning? || w'.busy.Cleaning? ==> w'.busy == w.busy)
  {
    hide Eligible, Mappings, Referencing, StillCurrent, BackingOff;
    assert AddCleanups(w.q.cleanups, {}) == w.q.cleanups;
  }

  lemma TakeCleanupKeepsFile(w: World, q: int, r: int)
    requires Enabled(w, TakeCleanup(q)) && r in w.db.relays && HasFile(w, r)
    ensures HasFile(TakeCleanupStep(w, q), r)
  {
    assert Awaiting(w, r) <= Awaiting(TakeCleanupStep(w, q), r);
  }

  lemma FinishCleanupKeepsFile(w: World, r: int)
    requires CleanupInv(w) && Enabled(w, FinishCleanup) && r in w.db.relays && HasFile(w, r)
    ensures HasFile(FinishCleanupStep(w), r)
  {
    hide DbInv;
    assert Awaiting(w, r) <= Awaiting(FinishCleanupStep(w), r);
  }

  /** Exactly when a step takes the last file of a relay that survives it. */
  lemma FileIsLostExactly(w: World, e: Event, r: int)
    requires CleanupInv(w) && Enabled(w, e) && SameRelay(w, Apply(w, e), r) && HasFile(w, r)
    ensures !HasFile(Apply(w, e), r) <==> e.CleanSlug? && TakesLastFile(w, e.slug, r)
  {
    hide TakesLastFile;
    match e {
      case Mutate(m) => MutateKeepsFile(w, m, r);
      case CleanSlug(slug) =>
        if CleaningFor(w, r) {
          OwnCleanup(w, slug, r);
        } else {
          ForeignCleanup(w, slug, r);
        }
      case TakeCleanup(q) => TakeCleanupKeepsFile(w, q, r);
      case FinishCleanup => FinishCleanupKeepsFile(w, r);
      case _ =>
        hide CleanupInv;
        OtherSteps(w, e);
    }
  }

  lemma MutateKeepsCleanup(w: World, m: Mutation)
    requires CleanupInv(w) && Enabled(w, Mutate(m))
    ensures CleanupInv(Apply(w, Mutate(m)))
  {
    CommitEffect(w.db, m);
    SlugsEffect(w.db, m);
    CommitStamps(w.db, m);
    AddedCleanups(w.q.cleanups, Derived(w.db, m).cleanups);
    hide Commit, Commits, Derived, AddCleanups, Bumped, PairsOk, MembersOk, Untouched;
  }

  lemma TakeCleanupKeeps(w: World, r: int)
    requires CleanupInv(w) && Enabled(w, TakeCleanup(r))
    ensures CleanupInv(TakeCleanupStep(w, r))
  {
    hide PairsOk, MembersOk;
  }

  lemma CleanSlugKeeps(w: World, slug: string)
    requires CleanupInv(w) && Enabled(w, CleanSlug(slug))
    ensures CleanupInv(CleanSlugStep(w, slug))
  {
    hide DbInv, Owned;
  }

  lemma FinishCleanupKeeps(w: World)
    requires CleanupInv(w) && Enabled(w, FinishCleanup)
    ensures CleanupInv(FinishCleanupStep(w))
  {
    hide DbInv;
  }

  lemma StepKeepsCleanup(w: World, e: Event)
    requires CleanupInv(w) && Enabled(w, e)
    ensures CleanupInv(Apply(w, e))
  {
    match e {
      case Mutate(m) => MutateKeepsCleanup(w, m);
      case TakeCleanup(r) => TakeCleanupKeeps(w, r);
      case CleanSlug(slug) => CleanSlugKeeps(w, slug);
      case FinishCleanup => FinishCleanupKeeps(w);
      case _ =>
        hide DbInv, Apply, Enabled;
        OtherSteps(w, e);
    }
  }

  lemma {:induction false} CleanupInEveryRun(db: Db, es: seq<Event>)
    requires DbInv(db) && IsRun(Init(db), es)
    ensures CleanupInv(Run(Init(db), es))
  {
    assert CleanupInv(Init(db)) by {
      hide DbInv;
    }
    RunKeepsCleanup(Init(db), es);
  }

  lemma {:induction false} RunKeepsCleanup(w: World, es: seq<Event>)
    requires CleanupInv(w) && IsRun(w, es)
    ensures CleanupInv(Run(w, es))
    decreases |es|
  {
    hide CleanupInv, Apply, Enabled;
    if es != [] {
      StepKeepsCleanup(w, es[0]);
      RunKeepsCleanup(Apply(w, es[0]), es[1..]);
    }
  }

  /** Relay r is the same relay in every state of the run. */
  ghost predicate Outlives(w: World, es: seq<Event>, r: int)
    requires IsRun(w, es)
    decreases |es|
  {
    r in w.db.relays && (es != [] ==> SameRelay(w, Apply(w, es[0]), r) && Outlives(Apply(w, es[0]), es[1..], r))
  }

  ghost predicate AlwaysHasFile(w: World, es: seq<Event>, r: int)
    requires IsRun(w, es) && Outlives(w, es, r)
    decreases |es|
  {
    HasFile(w, r) && (es != [] ==> AlwaysHasFile(Apply(w, es[0]), es[1..], r))
  }

  /** No step of the run is a cleanup that takes the relay's last file. */
  ghost predicate NeverTaken(w: World, es: seq<Event>, r: int)
    requires IsRun(w, es) && Outlives(w, es, r)
    decreases |es|
  {
    es != [] ==> !(es[0].CleanSlug? && TakesLastFile(w, es[0].slug, r)) && NeverTaken(Apply(w, es[0]), es[1..], r)
  }

  /** A relay with a file has one in every state of a run, renames, rebuilds and cleanups
      included, exactly when no cleanup in it takes the last one. */
  lemma {:induction false} FileStaysExactly(w: World, es: seq<Event>, r: int)
    requires CleanupInv(w) && IsRun(w, es) && Outlives(w, es, r) && HasFile(w, r)
    ensures AlwaysHasFile(w, es, r) <==> NeverTaken(w, es, r)
    decreases |es|
  {
    hide Apply, Enabled, HasFile, TakesLastFile, CleanupInv, SameRelay;
    if es != [] {
      FileIsLostExactly(w, es[0], r);
      StepKeepsCleanup(w, es[0]);
      if HasFile(Apply(w, es[0]), r) {
        FileStaysExactly(Apply(w, es[0]), es[1..], r);
      } else {
        LostAtOnce(w, es, r);
      }
    }
  }

  lemma LostAtOnce(w: World, es: seq<Event>, r: int)
    requires IsRun(w, es) && Outlives(w, es, r) && es != [] && !HasFile(Apply(w, es[0]), r)
    ensures !AlwaysHasFile(w, es, r)
  {
    hide Apply, Enabled, HasFile;
    assert !AlwaysHasFile(Apply(w, es[0]), es[1..], r);
  }

  /** No other relay sits on a slug this one waits to clean up, and no other relay's cleanup
      (or one begun for an earlier relay of the same id) is going through such a slug. */
  predicate Unclaimed(w: World, r: int)
    requires r in w.db.relays
  {
    (forall q :: q in w.db.relays && q != r ==> w.db.relays[q].slug !in Awaiting(w, r))
    && (w.busy.Cleaning? && !CleaningFor(w, r) ==> w.busy.todo !! Awaiting(w, r))
  }

  lemma UnclaimedIsNotTaken(w: World, slug: string, r: int)
    requires DbInv(w.db) && Enabled(w, CleanSlug(slug)) && r in w.db.relays && Unclaimed(w, r)
    ensures !TakesLastFile(w, slug, r)
  {
    hide PairsOk, MembersOk;
  }

  /** Relay r is unclaimed in every state of the run. */
  ghost predicate StaysUnclaimed(w: World, es: seq<Event>, r: int)
    requires IsRun(w, es) && Outlives(w, es, r)
    decreases |es|
  {
    Unclaimed(w, r) && (es != [] ==> StaysUnclaimed(Apply(w, es[0]), es[1..], r))
  }

  /** So it keeps a file as long as no other relay sits on, or cleans up, a slug of its own
      that waits for cleanup. */
  lemma {:induction false} FileStaysInRun(w: World, es: seq<Event>, r: int)
    requires CleanupInv(w) && IsRun(w, es) && Outlives(w, es, r) && StaysUnclaimed(w, es, r) && HasFile(w, r)
    ensures NeverTaken(w, es, r) && AlwaysHasFile(w, es, r)
    decreases |es|
  {
    hide Apply, Enabled, HasFile, Unclaimed, CleanupInv, TakesLastFile, SameRelay;
    FileStaysExactly(w, es, r);
    if es != [] {
      FirstNotTaken(w, es[0], r);
      FileIsLostExactly(w, es[0], r);
      StepKeepsCleanup(w, es[0]);
      FileStaysInRun(Apply(w, es[0]), es[1..], r);
    }
  }

  lemma FirstNotTaken(w: World, e: Event, r: int)
    requires CleanupInv(w) && Enabled(w, e) && r in w.db.relays && Unclaimed(w, r)
    ensures !(e.CleanSlug? && TakesLastFile(w, e.slug, r))
  {
    hide TakesLastFile, Unclaimed, DbInv, CleaningOk, NoBlanks;
    if e.CleanSlug? {
      UnclaimedIsNotTaken(w, e.slug, r);
    }
  }

  /** Relay 2 has the slug that relay 1 is about to get. */
  function TwoRelays(): Db {
    Db(map[1 := Relay("a", 0), 2 := Relay("s", 0)], map[], map[], map[], 1)
  }

  /** Their worlds, while one admission is held. */
  function WithRelays(relays: map<int, Relay>, xml: map<string, XmlFile>, pending: set<int>, cleanups: map<int, Cleanup>, busy: Busy): World {
    World(Db(relays, map[], map[], map[], 1), EMPTY, xml, Queues(true, 1, {}, {}, pending, cleanups), map[],
          Timers(0, map[], map[], map[]), busy)
  }

  lemma ThenDeletesRelay(w0: World, es: seq<Event>, relays: map<int, Relay>, xml: map<string, XmlFile>, cleanups: map<int, Cleanup>, r: int)
    requires Leads(w0, es, WithRelays(relays, xml, {}, cleanups, Idle))
    requires r in relays && r > 0 && relays[r].slug != "" && r !in cleanups
    ensures Leads(w0, es + [Mutate(DeleteRelay(r))],
                  WithRelays(relays - {r}, xml, {}, cleanups[r := Cleanup({relays[r].slug}, 0)], Idle))
  {
    OneCleanup(cleanups, r, relays[r].slug);
    assert EMPTY.tags - {} == EMPTY.tags && Bumped(map[], {}, {}) == map[] && {} + Positive({}) == {};
    assert {} + {relays[r].slug} == {relays[r].slug};
    hide AddCleanups, Bumped, Positive, Leads;
    var w := WithRelays(relays, xml, {}, cleanups, Idle);
    assert Commit(w.db, DeleteRelay(r)).members == map[];
    ThenMutate(w0, es, w, DeleteRelay(r));
  }

  lemma ThenRenamesRelay(w0: World, es: seq<Event>, relay: Relay, xml: map<string, XmlFile>, cleanups: map<int, Cleanup>, busy: Busy, slug: string)
    requires Leads(w0, es, WithRelays(map[1 := relay], xml, {}, cleanups, busy))
    requires relay.slug != "" && slug != "" && relay.slug != slug
    ensures Leads(w0, es + [Mutate(UpdateRelay(1, slug))],
                  WithRelays(map[1 := relay.(slug := slug)], xml, {1}, cleanups[1 := Cleanup(Waiting(cleanups, 1) + {relay.slug}, 0)], busy))
  {
    OneCleanup(cleanups, 1, relay.slug);
    assert EMPTY.tags - {} == EMPTY.tags && Bumped(map[], {}, {}) == map[] && {} + Positive({1}) == {1};
    hide AddCleanups, Bumped, Positive, Leads;
    var w := WithRelays(map[1 := relay], xml, {}, cleanups, busy);
    ThenMutate(w0, es, w, UpdateRelay(1, slug));
  }

  /** Relay 2 is deleted; relay 1 gets its slug and writes its file; its cleanup is taken;
      relay 1 moves on. */
  const MOVES: seq<Event> :=
    [Acquire, Mutate(DeleteRelay(2)), Mutate(UpdateRelay(1, "s")), TakeRelay(1), WriteRelay, TakeCleanup(2),
     Mutate(UpdateRelay(1, "c"))]

  /** The world they lead to. */
  ghost function Moved(f: XmlFile): World {
    WithRelays(map[1 := Relay("c", 0)], map["s" := f], {1}, map[1 := Cleanup({"a", "s"}, 0)], Cleaning(2, None, {"s"}, {}))
  }

  const OLD_S := Cleanup({"s"}, 0)
  const OLD_A := Cleanup({"a"}, 0)

  lemma FirstMoves()
    ensures Leads(Init(TwoRelays()), MOVES[..2], WithRelays(map[1 := Relay("a", 0)], map[], {}, map[2 := OLD_S], Idle))
  {
    hide Leads, Run, IsRun;
    var w0, two := Init(TwoRelays()), TwoRelays().relays;
    LeadsNowhere(w0);
    LeadsOn(w0, [], w0, Acquire);
    ThenDeletesRelay(w0, [] + [Acquire], two, map[], map[], 2);
    assert two - {2} == map[1 := Relay("a", 0)];
    assert MOVES[..2] == [] + [Acquire] + [Mutate(DeleteRelay(2))];
  }

  /** Relay 1 under its second slug, with its file. */
  lemma MiddleMoves() returns (f: XmlFile)
    ensures Leads(Init(TwoRelays()), MOVES[..5], WithRelays(map[1 := Relay("s", 0)], map["s" := f], {}, map[2 := OLD_S, 1 := OLD_A], Idle))
  {
    hide Leads, Run, IsRun, Build;
    FirstMoves();
    var w0, one, waiting := Init(TwoRelays()), map[1 := Relay("s", 0)], map[2 := OLD_S, 1 := OLD_A];
    ThenRenamesRelay(w0, MOVES[..2], Relay("a", 0), map[], map[2 := OLD_S], Idle, "s");
    var w3 := WithRelays(one, map[], {1}, waiting, Idle);
    assert {} + {"a"} == {"a"};
    ThenTakeRelay(w0, MOVES[..2] + [Mutate(UpdateRelay(1, "s"))], w3, 1);
    var w4 := TakeRelayStep(w3, 1);
    assert w4.busy == Building(1, "s", 0, {}, map[]);
    ThenWriteRelay(w0, MOVES[..2] + [Mutate(UpdateRelay(1, "s"))] + [TakeRelay(1)], w4);
    f := XmlFile(Build({}, map[]), 1, 0);
    assert WriteRelayStep(w4) == WithRelays(one, map["s" := f], {}, waiting, Idle);
    assert MOVES[..5] == MOVES[..2] + [Mutate(UpdateRelay(1, "s"))] + [TakeRelay(1)] + [WriteRelay];
  }

  lemma AllMoves() returns (f: XmlFile)
    ensures Leads(Init(TwoRelays()), MOVES, Moved(f))
  {
    hide Leads, Run, IsRun;
    f := MiddleMoves();
    var w0, one, waiting := Init(TwoRelays()), map[1 := Relay("s", 0)], map[2 := OLD_S, 1 := OLD_A];
    ThenTakeCleanup(w0, MOVES[..5], WithRelays(one, map["s" := f], {}, waiting, Idle), 2);
    assert waiting - {2} == map[1 := OLD_A];
    assert TakeCleanupStep(WithRelays(one, map["s" := f], {}, waiting, Idle), 2)
        == WithRelays(one, map["s" := f], {}, map[1 := OLD_A], Cleaning(2, None, {"s"}, {}));
    ThenRenamesRelay(w0, MOVES[..5] + [TakeCleanup(2)], Relay("s", 0), map["s" := f], map[1 := OLD_A], Cleaning(2, None, {"s"}, {}), "c");
    assert Waiting(map[1 := OLD_A], 1) + {"s"} == {"a", "s"};
    assert map[1 := OLD_A][1 := Cleanup({"a", "s"}, 0)] == map[1 := Cleanup({"a", "s"}, 0)];
    assert MOVES == MOVES[..5] + [TakeCleanup(2)] + [Mutate(UpdateRelay(1, "c"))];
  }

  /** Relay 1, the only relay, has a file, and the cleanup of "s" takes it. */
  predicate AboutToLose(w: World) {
    w.db.relays.Keys == {1} && Enabled(w, CleanSlug("s")) && HasFile(w, 1)
    && 1 in CleanSlugStep(w, "s").db.relays && !HasFile(CleanSlugStep(w, "s"), 1)
  }

  /** Another relay's leftover cleanup does take a last file: after these moves from a fresh
      start relay 1, the only relay, has nothing but "s.xml", and the cleanup begun for the
      deleted relay removes it. */
  lemma AnotherCleanupTakesTheFile()
    ensures DbInv(TwoRelays())
    ensures exists w :: Leads(Init(TwoRelays()), MOVES, w) && AboutToLose(w)
  {
    hide Leads;
    var f := AllMoves();
    var w := Moved(f);
    assert "s" in Awaiting(w, 1);
    assert w.db.relays[1].slug[0] != "s"[0];
    assert !Owned(w.db, "s");
    assert CleanSlugStep(w, "s").xml == map[];
    assert AboutToLose(w);
  }

  // ---------------------------------------------------------------- admission

  /** With admission closed and nobody holding it, pending work only drains. */
  predicate Drains(w: World, w': World) {
    && !CanEnqueue(w'.q)
    && w'.q.deletes <= w.q.deletes && w'.q.sources <= w.q.sources && w'.q.relays <= w.q.relays
  }

  lemma ClosedStep(w: World, e: Event)
    requires Enabled(w, e) && !CanEnqueue(w.q)
    ensures Drains(w, Apply(w, e))
  {
    hide AddCleanups, Eligible, Mappings, Referencing, StillCurrent, BackingOff, Commits, Commit, Derived, Owned;
  }

  lemma {:induction false} ClosedRun(w: World, es: seq<Event>)
    requires IsRun(w, es) && !CanEnqueue(w.q)
    ensures Drains(w, Run(w, es))
    decreases |es|
  {
    hide Apply, Enabled;
    if es != [] {
      ClosedStep(w, es[0]);
      ClosedRun(Apply(w, es[0]), es[1..]);
    }
  }

  // ---------------------------------------------------------------- back-off

  const DELAYS := {1, 2, 4, 8, 16, 32, 64, 128, 256, 512}

  /** A failing source waits a doubling delay, at most 512 seconds from now. */
  predicate BackoffOk(t: Timers) {
    t.nextRetry.Keys == t.backoff.Keys
    && forall s :: s in t.backoff ==> t.backoff[s] in DELAYS && t.nextRetry[s] <= t.now + t.backoff[s]
  }

  lemma BackoffStep(w: World, e: Event)
    requires BackoffOk(w.timers) && Enabled(w, e)
    ensures BackoffOk(Apply(w, e).timers)
  {
    hide AddCleanups, Eligible, Mappings, Referencing, StillCurrent, Commits, Commit, Derived, Owned;
  }

  lemma {:induction false} BackoffRun(w: World, es: seq<Event>)
    requires BackoffOk(w.timers) && IsRun(w, es)
    ensures BackoffOk(Run(w, es).timers)
    decreases |es|
  {
    hide Apply, Enabled, BackoffOk;
    if es != [] {
      BackoffStep(w, es[0]);
      BackoffRun(Apply(w, es[0]), es[1..]);
    }
  }

  // ---------------------------------------------------------------- fetches overtaken by a change

  /** A fetch never begins with a revision the source has not had. */
  predicate SeenOk(w: World) {
    w.busy.Fetching? ==> w.busy.seen <= RevOf(w.revs, w.busy.source)
  }

  /** The source's revision has moved on since the fetch began. */
  predicate Overtaken(w: World) {
    w.busy.Fetching? && w.busy.seen < RevOf(w.revs, w.busy.source)
  }

  lemma RevisionsOnlyGrow(w: World, e: Event, s: int)
    requires Enabled(w, e)
    ensures RevOf(w.revs, s) <= RevOf(Apply(w, e).revs, s)
  {
    hide AddCleanups, Eligible, Mappings, Referencing, StillCurrent, BackingOff, Commits, Commit, Derived, Owned;
  }

  lemma SameFetch(w: World, e: Event)
    requires Enabled(w, e) && w.busy.Fetching? && Apply(w, e).busy.Fetching?
    ensures Apply(w, e).busy == w.busy
  {
    hide AddCleanups, StillCurrent, Commits, Commit, Derived;
  }

  lemma SeenStep(w: World, e: Event)
    requires SeenOk(w) && Enabled(w, e)
    ensures SeenOk(Apply(w, e))
    ensures Overtaken(w) && Apply(w, e).busy.Fetching? ==> Overtaken(Apply(w, e))
  {
    if Apply(w, e).busy.Fetching? {
      RevisionsOnlyGrow(w, e, Apply(w, e).busy.source);
      if w.busy.Fetching? {
        SameFetch(w, e);
      } else {
        hide Commit, Derived, Commits, AddCleanups, Referencing, Eligible, Mappings;
      }
    }
  }

  /** The fetch is not finished or cancelled in any state of the run. */
  ghost predicate StaysInFlight(w: World, es: seq<Event>)
    requires IsRun(w, es)
    decreases |es|
  {
    w.busy.Fetching? && (es != [] ==> StaysInFlight(Apply(w, es[0]), es[1..]))
  }

  lemma {:induction false} OvertakenStays(w: World, es: seq<Event>)
    requires SeenOk(w) && Overtaken(w) && IsRun(w, es) && StaysInFlight(w, es)
    ensures Overtaken(Run(w, es))
    decreases |es|
  {
    hide Apply, Enabled, Overtaken, SeenOk;
    if es != [] {
      SeenStep(w, es[0]);
      assert StaysInFlight(Apply(w, es[0]), es[1..]);
      assert Apply(w, es[0]).busy.Fetching? by {
        assert StaysInFlight(Apply(w, es[0]), es[1..]);
      }
      OvertakenStays(Apply(w, es[0]), es[1..]);
    }
  }

  /** A mutation that invalidates a source while it is being fetched, or deletes its files,
      makes the fetch publish nothing, whatever else happens before it ends. */
  lemma OvertakenFetchPublishesNothing(w: World, m: Mutation, es: seq<Event>, doc: Doc, channels: seq<ChannelInfo>)
    requires SeenOk(w) && w.busy.Fetching? && Enabled(w, Mutate(m))
    requires w.busy.source in Derived(w.db, m).invalidate + Derived(w.db, m).deletes
    requires IsRun(Apply(w, Mutate(m)), es) && StaysInFlight(Apply(w, Mutate(m)), es)
    ensures var w' := Run(Apply(w, Mutate(m)), es);
            w'.busy.Fetching? && FinishFetchStep(w', Some(doc), channels) == w'.(busy := Idle)
  {
    SeenStep(w, Mutate(m));
    assert Overtaken(Apply(w, Mutate(m))) by {
      hide Derived, Commit, Commits, AddCleanups;
    }
    hide Apply, Enabled, Run, IsRun, Derived;
    OvertakenStays(Apply(w, Mutate(m)), es);
  }
}
