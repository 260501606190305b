/** The guide service of internal/core/epg/worker.go: queues updated in place under the
    service lock, and the worker's drain loop. Every atomic method is one step of EpgModel. */
module GuideService {
  import opened Seqs
  import opened RelayXml
  import opened Library
  import opened SourceCache
  import opened EpgModel
  import Freshness

  function Ids(ids: seq<int>): set<int> {
    set id | id in ids
  }

  function Items(items: seq<(int, string)>): set<(int, string)> {
    set c | c in items
  }

  /** workflows.DerivedWork, the sources found due included in `refresh`. */
  datatype DerivedWork = DerivedWork(
    refresh: seq<int>, invalidate: seq<int>, deletes: seq<int>, rebuild: seq<int>, cleanups: seq<(int, string)>)
  {
    function AsSets(): Work {
      Work(Ids(invalidate), Ids(deletes), Ids(refresh), Ids(rebuild), Items(cleanups))
    }
  }

  /** The membership's channel has a complete pair with this source. */
  predicate References(db: Db, member: int, source: int)
    requires member in db.members
  {
    var c := db.members[member].channel;
    c in db.channels && db.channels[c].Some? && db.channels[c].value.source == source
  }

  /** What can become of a slug whose cleanup was taken. */
  predicate Disposed(db: Db, xml: map<string, XmlFile>, cleanups: map<int, Cleanup>, now: nat, r: int, slug: string) {
    slug == "" || slug !in xml || Owned(db, slug)
    || (r in cleanups && slug in cleanups[r].slugs && !Ready(cleanups[r], now))
  }

  predicate Loadable(db: Db, cache: Cache, s: int) {
    Eligible(db, cache, s) && cache.manifests[s].gen in cache.gens
  }

  predicate DocsAreLoaded(db: Db, cache: Cache, docs: map<int, Doc>) {
    forall s :: s in docs ==> Loadable(db, cache, s) && docs[s] == cache.gens[cache.manifests[s].gen].doc
  }

  lemma AllLoaded(db: Db, cache: Cache, ms: set<Mapping>, docs: map<int, Doc>)
    requires docs.Keys == Sources(ms) && DocsAreLoaded(db, cache, docs)
    ensures docs == Freshness.Docs(cache, ms)
  {
    hide Url;
  }

  /** The relay is there, and so are the documents of all the sources it needs. */
  predicate Buildable(db: Db, cache: Cache, r: int) {
    r in db.relays && forall s :: s in Sources(Mappings(db, r)) ==> Loadable(db, cache, s)
  }

  /** The file a build of the relay leaves: today's pairs filled from today's documents. */
  ghost function Built(db: Db, cache: Cache, r: int): XmlFile
    requires r in db.relays && DbInv(db)
  {
    var ms := Mappings(db, r);
    PairsStored(db, r);
    XmlFile(Build(ms, Freshness.Docs(cache, ms)), r, db.relays[r].stamp)
  }

  ghost predicate IsBuilt(db: Db, cache: Cache, xml: map<string, XmlFile>, r: int)
    requires DbInv(db)
  {
    Buildable(db, cache, r) ==> db.relays[r].slug in xml && xml[db.relays[r].slug] == Built(db, cache, r)
  }

  /** One more relay is built; the others keep their files, as slugs are unique. */
  lemma OneMoreBuilt(db: Db, cache: Cache, xml: map<string, XmlFile>, xml': map<string, XmlFile>, r: int, before: set<int>)
    requires DbInv(db)
    requires forall q :: q in before ==> IsBuilt(db, cache, xml, q)
    requires xml' == if Buildable(db, cache, r) then xml[db.relays[r].slug := Built(db, cache, r)] else xml
    ensures forall q :: q in before + {r} ==> IsBuilt(db, cache, xml', q)
  {
    hide PairsOk, MembersOk, Mappings, Loadable, Built;
  }

  /** Enqueue, field by field. */
  lemma EnqueueIs(q: Queues, work: Work, q': Queues)
    requires q'.admitOpen == q.admitOpen && q'.held == q.held && q'.cleanups == AddCleanups(q.cleanups, work.cleanups)
    requires q'.deletes == if CanEnqueue(q') then q.deletes + work.deletes else q.deletes
    requires q'.sources == if CanEnqueue(q') then q.sources + work.refresh else q.sources
    requires q'.relays == if CanEnqueue(q') then q.relays + Positive(work.rebuild) else q.relays
    ensures q' == Enqueue(q, work)
  {
    hide AddCleanups, Positive;
  }

  lemma EnqueueGrows(q: Queues, work: Work)
    ensures q.relays <= Enqueue(q, work).relays
  {
    hide AddCleanups;
  }

  /** Files whose slugs live relays own are as before. */
  predicate OwnedKept(db: Db, xml: map<string, XmlFile>, xml': map<string, XmlFile>) {
    forall slug :: slug in xml && Owned(db, slug) ==> slug in xml' && xml'[slug] == xml[slug]
  }

  function ReadyAt(cleanups: map<int, Cleanup>, now: nat): set<int> {
    set r | r in cleanups && Ready(cleanups[r], now)
  }

  lemma OneLessReady(cleanups: map<int, Cleanup>, cleanups': map<int, Cleanup>, now: nat, r: int)
    requires r in cleanups && Ready(cleanups[r], now) && (r in cleanups' ==> !Ready(cleanups'[r], now))
    requires forall q :: q != r ==> (q in cleanups' <==> q in cleanups) && (q in cleanups' ==> cleanups'[q] == cleanups[q])
    ensures cleanups'.Keys <= cleanups.Keys && ReadyAt(cleanups', now) < ReadyAt(cleanups, now)
  {
    hide Ready;
    assert r in ReadyAt(cleanups, now) && r !in ReadyAt(cleanups', now);
  }

  lemma AllKept(db: Db, xml: map<string, XmlFile>)
    ensures OwnedKept(db, xml, xml)
  {
  }

  lemma KeptTwice(db: Db, xml0: map<string, XmlFile>, xml: map<string, XmlFile>, xml': map<string, XmlFile>)
    requires OwnedKept(db, xml0, xml) && OwnedKept(db, xml, xml')
    ensures OwnedKept(db, xml0, xml')
  {
  }

  lemma KeptOn(db: Db, xml0: map<string, XmlFile>, xml: map<string, XmlFile>, xml': map<string, XmlFile>, slug: string)
    requires OwnedKept(db, xml0, xml)
    requires xml' == xml || (xml' == xml - {slug} && !Owned(db, slug))
    ensures OwnedKept(db, xml0, xml')
  {
    hide Owned;
  }

  lemma KeptBuilt(db: Db, cache: Cache, xml: map<string, XmlFile>, xml': map<string, XmlFile>, r: int)
    requires DbInv(db) && IsBuilt(db, cache, xml, r) && OwnedKept(db, xml, xml')
    ensures IsBuilt(db, cache, xml', r)
  {
    hide DbInv, Mappings, Loadable, Built, Owned;
    if Buildable(db, cache, r) {
      RowOwns(db, r);
    }
  }

  lemma RefreshRequested(w: World, ids: set<int>)
    ensures Apply(w, RequestRefresh(ids)) == w.(q := Enqueue(w.q, NO_WORK.(refresh := ids)))
  {
  }

  lemma NoRebuild(ids: seq<int>)
    ensures ids == [] ==> Positive(Ids(ids)) == {}
  {
  }

  lemma OneMore(ids: seq<int>, i: nat)
    requires i < |ids|
    ensures Ids(ids[..i + 1]) == Ids(ids[..i]) + {ids[i]}
  {
    assert ids[..i + 1] == ids[..i] + [ids[i]];
  }

  /** Every mention of a source moves its revision on by one. */
  function Raised(revs: map<int, nat>, ids: seq<int>): map<int, nat> {
    map s | s in revs.Keys + Ids(ids) :: RevOf(revs, s) + multiset(ids)[s]
  }

  /** How one more mention counts. */
  lemma MentionsStep(ids: seq<int>, i: nat, s: int)
    requires i < |ids|
    ensures multiset(ids[..i + 1])[s] == multiset(ids[..i])[s] + if s == ids[i] then 1 else 0
    ensures s in Ids(ids[..i + 1]) <==> s in Ids(ids[..i]) || s == ids[i]
    ensures s !in Ids(ids[..i]) ==> multiset(ids[..i])[s] == 0
  {
    assert ids[..i + 1] == ids[..i] + [ids[i]];
  }

  lemma RaisedMore(revs: map<int, nat>, ids: seq<int>, i: nat)
    requires i < |ids|
    ensures Raised(revs, ids[..i + 1]) == Raised(revs, ids[..i])[ids[i] := RevOf(Raised(revs, ids[..i]), ids[i]) + 1]
  {
    hide Ids;
    var before, after := Raised(revs, ids[..i]), Raised(revs, ids[..i + 1]);
    var want := before[ids[i] := RevOf(before, ids[i]) + 1];
    forall s ensures s in after <==> s in want {
      MentionsStep(ids, i, s);
    }
    forall s | s in after ensures after[s] == want[s] {
      MentionsStep(ids, i, s);
    }
  }

  lemma RaisedTwice(revs: map<int, nat>, a: seq<int>, b: seq<int>)
    ensures Raised(Raised(revs, a), b) == Raised(revs, a + b)
  {
    assert Ids(a + b) == Ids(a) + Ids(b);
    assert multiset(a + b) == multiset(a) + multiset(b);
    forall s | s !in Ids(a) ensures multiset(a)[s] == 0 {
    }
  }

  lemma {:induction false} MentionedOnce(ids: seq<int>, s: int)
    requires NoRepeats(ids)
    ensures multiset(ids)[s] == if s in ids then 1 else 0
  {
    if ids != [] {
      MentionedOnce(ids[1..], s);
      assert ids == [ids[0]] + ids[1..];
    }
  }

  lemma MentionedIn(a: seq<int>, b: seq<int>, s: int)
    requires NoRepeats(a) && NoRepeats(b)
    ensures multiset(a + b)[s] == (if s in Ids(a) then 1 else 0) + (if s in Ids(b) then 1 else 0)
    ensures s in Ids(a + b) <==> s in Ids(a) || s in Ids(b)
  {
    MentionedOnce(a, s);
    MentionedOnce(b, s);
    assert multiset(a + b) == multiset(a) + multiset(b);
  }

  /** With nothing mentioned twice, it is the model's step. */
  lemma RaisedIsBumped(revs: map<int, nat>, a: seq<int>, b: seq<int>)
    requires NoRepeats(a) && NoRepeats(b)
    ensures Raised(revs, a + b) == Bumped(revs, Ids(a), Ids(b))
  {
    hide NoRepeats, Ids;
    var raised, bumped := Raised(revs, a + b), Bumped(revs, Ids(a), Ids(b));
    forall s ensures s in raised <==> s in bumped {
      MentionedIn(a, b, s);
    }
    forall s | s in raised ensures raised[s] == bumped[s] {
      MentionedIn(a, b, s);
    }
  }

  lemma NoCleanups(cleanups: map<int, Cleanup>)
    ensures AddCleanups(cleanups, {}) == cleanups
  {
  }

  lemma DueAreSources(db: Db, t: Timers)
    ensures DueSources(db, t) <= db.sources.Keys
  {
  }

  lemma AddTwice(cleanups: map<int, Cleanup>, more: set<(int, string)>, c: (int, string))
    ensures AddCleanups(AddCleanups(cleanups, more), {c}) == AddCleanups(cleanups, more + {c})
  {
    hide Named, SlugsOf;
    NamedUnion(more, {c});
    var lhs, rhs := AddCleanups(AddCleanups(cleanups, more), {c}), AddCleanups(cleanups, more + {c});
    forall r | r in rhs ensures r in lhs && lhs[r] == rhs[r] {
      NotNamed(more, r);
      NotNamed({c}, r);
    }
  }

  lemma NamedUnion(a: set<(int, string)>, b: set<(int, string)>)
    ensures Named(a + b) == Named(a) + Named(b)
    ensures forall r :: SlugsOf(a + b, r) == SlugsOf(a, r) + SlugsOf(b, r)
    ensures forall r :: r in Named(a + b) ==> r > 0
  {
  }

  lemma NotNamed(more: set<(int, string)>, r: int)
    ensures r in Named(more) || r <= 0 || SlugsOf(more, r) == {}
  {
    if s :| r > 0 && s in SlugsOf(more, r) {
      assert (r, s) in more;
    }
  }

  lemma NothingYet(c: Cache, revs: map<int, nat>)
    ensures Forget(c, {}) == c && Raised(revs, []) == revs
  {
    assert c.tags - {} == c.tags;
  }

  lemma ForgetMore(c: Cache, a: set<int>, b: set<int>)
    ensures Forget(Forget(c, a), b) == Forget(c, a + b)
  {
    assert c.tags - a - b == c.tags - (a + b);
  }

  /** What one more source of a list does to the tags, revisions and queues. */
  lemma OneMoreListed(c: Cache, revs: map<int, nat>, pending: set<int>, ids: seq<int>, i: nat)
    requires i < |ids|
    ensures Forget(Forget(c, Ids(ids[..i])), {ids[i]}) == Forget(c, Ids(ids[..i + 1]))
    ensures Raised(revs, ids[..i + 1]) == Raised(revs, ids[..i])[ids[i] := RevOf(Raised(revs, ids[..i]), ids[i]) + 1]
    ensures pending + Ids(ids[..i + 1]) == pending + Ids(ids[..i]) + {ids[i]}
  {
    OneMore(ids, i);
    RaisedMore(revs, ids, i);
    ForgetMore(c, Ids(ids[..i]), {ids[i]});
  }

  lemma NoneListed(c: Cache, revs: map<int, nat>, pending: set<int>, ids: seq<int>)
    ensures Forget(c, Ids(ids[..0])) == c && Raised(revs, ids[..0]) == revs && pending + Ids(ids[..0]) == pending
    ensures ids[..|ids|] == ids
  {
    NothingYet(c, revs);
    assert ids[..0] == [] && Ids([]) == {};
  }

  class Service {
    var db: Db                            // the store
    var cache: Cache                      // source files and Service.indexes
    var xml: map<string, XmlFile>         // relay caches
    var admitOpen: bool
    var admitHeld: nat
    var pendingDeletes: set<int>
    var pendingSources: set<int>
    var pendingRelays: set<int>
    var cleanups: map<int, Cleanup>
    var sourceRev: map<int, nat>
    var now: nat
    var nextRetry: map<int, nat>
    var failBackoff: map<int, nat>
    var lastRefresh: map<int, nat>        // the column last_refresh_at
    ghost var busy: Busy

    ghost function Q(): Queues
      reads `admitOpen, `admitHeld, `pendingDeletes, `pendingSources, `pendingRelays, `cleanups
    {
      Queues(admitOpen, admitHeld, pendingDeletes, pendingSources, pendingRelays, cleanups)
    }

    ghost function Abs(): World
      reads this
    {
      World(db, cache, xml, Q(), sourceRev, Clock(), busy)
    }

    constructor (db: Db)
      ensures Abs() == Init(db)
    {
      this.db, cache, xml, admitOpen, admitHeld := db, EMPTY, map[], true, 0;
      pendingDeletes, pendingSources, pendingRelays, cleanups := {}, {}, {}, map[];
      sourceRev, now, nextRetry, failBackoff, lastRefresh, busy := map[], 0, map[], map[], map[], Idle;
    }

    // -------------------------------------------------------------- admission and enqueueing

    method AcquireAdmission() returns (ok: bool)
      modifies `admitHeld
      ensures ok == Enabled(old(Abs()), Acquire)
      ensures Abs() == if ok then Apply(old(Abs()), Acquire) else old(Abs())
    {
      ok := admitOpen;
      if ok {
        admitHeld := admitHeld + 1;
      }
    }

    /** The release function; releasing more often than acquiring does nothing. */
    method ReleaseAdmission()
      modifies `admitHeld
      ensures Abs() == if Enabled(old(Abs()), Release) then Apply(old(Abs()), Release) else old(Abs())
    {
      if admitHeld > 0 {
        admitHeld := admitHeld - 1;
      }
    }

    method CloseAdmission()
      modifies `admitOpen
      ensures Abs() == Apply(old(Abs()), Event.CloseAdmission)
    {
      admitOpen := false;
    }

    method EnqueueRefreshSource(id: int) returns (ok: bool)
      modifies `pendingSources
      ensures ok == CanEnqueue(Q())
      ensures pendingSources == if ok then old(pendingSources) + {id} else old(pendingSources)
    {
      ok := admitOpen || admitHeld > 0;
      if ok {
        pendingSources := pendingSources + {id};
      }
    }

    method EnqueueRebuildRelays(ids: seq<int>) returns (ok: bool)
      modifies `pendingRelays
      ensures Q() == Enqueue(old(Q()), NO_WORK.(rebuild := Ids(ids)))
      ensures ok <==> CanEnqueue(Q()) || Positive(Ids(ids)) == {}
    {
      assert AddCleanups(cleanups, {}) == cleanups;
      for i := 0 to |ids|
        invariant pendingRelays == if CanEnqueue(Q()) then old(pendingRelays) + Positive(Ids(ids[..i])) else old(pendingRelays)
        invariant !CanEnqueue(Q()) ==> Positive(Ids(ids[..i])) == {}
      {
        assert ids[..i + 1] == ids[..i] + [ids[i]];
        if ids[i] > 0 {
          if !admitOpen && admitHeld == 0 {
            assert ids[i] in Positive(Ids(ids));
            return false;
          }
          pendingRelays := pendingRelays + {ids[i]};
        }
      }
      assert ids[..|ids|] == ids;
      ok := true;
    }

    method EnqueueRelayCleanup(relay: int, oldSlug: string) returns (ok: bool)
      modifies `cleanups
      ensures cleanups == AddCleanups(old(cleanups), {(relay, oldSlug)})
      ensures ok <==> relay <= 0 || oldSlug == "" || CanEnqueue(Q())
    {
      ok := true;
      OneCleanup(cleanups, relay, oldSlug);
      if relay > 0 && oldSlug != "" {
        var slugs := if relay in cleanups then cleanups[relay].slugs else {};
        cleanups := cleanups[relay := Cleanup(slugs + {oldSlug}, 0)];
        ok := admitOpen || admitHeld > 0;
      }
    }

    method InvalidateSource(id: int)
      modifies `sourceRev, `cache
      ensures cache == Forget(old(cache), {id})
      ensures sourceRev == old(sourceRev)[id := RevOf(old(sourceRev), id) + 1]
    {
      sourceRev := sourceRev[id := RevOf(sourceRev, id) + 1];
      cache := cache.(tags := cache.tags - {id});
    }

    method EnqueueDeleteSourceFiles(id: int) returns (ok: bool)
      modifies `sourceRev, `cache, `pendingDeletes
      ensures cache == Forget(old(cache), {id})
      ensures sourceRev == old(sourceRev)[id := RevOf(old(sourceRev), id) + 1]
      ensures ok == CanEnqueue(Q())
      ensures pendingDeletes == if ok then old(pendingDeletes) + {id} else old(pendingDeletes)
    {
      sourceRev := sourceRev[id := RevOf(sourceRev, id) + 1];
      cache := cache.(tags := cache.tags - {id});
      ok := admitOpen || admitHeld > 0;
      if ok {
        pendingDeletes := pendingDeletes + {id};
      }
    }

    ghost function Clock(): Timers
      reads `now, `nextRetry, `failBackoff, `lastRefresh
    {
      Timers(now, nextRetry, failBackoff, lastRefresh)
    }

    method IsDue(s: int) returns (due: bool)
      requires s in db.sources
      ensures due <==> s in DueSources(db, Clock())
    {
      var src := db.sources[s];
      var interval := if src.interval < MIN_INTERVAL then MIN_INTERVAL else src.interval;
      due := src.enabled && (s !in lastRefresh || lastRefresh[s] + interval <= now);
      if due && s in nextRetry && now < nextRetry[s] {
        due := false;
      }
    }

    /** EnqueueRefreshDue: enabled sources whose interval has passed and that are not backing
        off, up to the first that is not taken. */
    method EnqueueRefreshDue() returns (ok: bool)
      modifies `pendingSources
      ensures Abs() == Apply(old(Abs()), RequestRefresh(DueSources(db, Clock())))
      ensures ok <==> CanEnqueue(Q()) || DueSources(db, Clock()) == {}
    {
      NoCleanups(cleanups);
      DueAreSources(db, Clock());
      hide AddCleanups, DueSources, Apply;
      RefreshRequested(Abs(), DueSources(db, Clock()));
      ghost var all := DueSources(db, Clock());
      ok := true;
      var todo, seen: set<int> := db.sources.Keys, {};
      while todo != {} && ok
        invariant todo <= db.sources.Keys && seen == all - todo
        invariant ok ==> pendingSources == if CanEnqueue(Q()) then old(pendingSources) + seen else old(pendingSources)
        invariant ok && !CanEnqueue(Q()) ==> seen == {}
        invariant !ok ==> !CanEnqueue(Q()) && seen != {} && pendingSources == old(pendingSources)
        decreases todo, ok
      {
        var s := Pick(todo);
        todo := todo - {s};
        var due := IsDue(s);
        if due {
          ok := EnqueueRefreshSource(s);
          seen := seen + {s};
        }
      }
    }

    // -------------------------------------------------------------- ApplyDerivedWork

    method InvalidateAll(ids: seq<int>)
      modifies `sourceRev, `cache
      ensures cache == Forget(old(cache), Ids(ids))
      ensures sourceRev == Raised(old(sourceRev), ids)
    {
      NoneListed(cache, sourceRev, {}, ids);
      hide Forget, Raised, Ids, RevOf;
      for i := 0 to |ids|
        invariant cache == Forget(old(cache), Ids(ids[..i])) && sourceRev == Raised(old(sourceRev), ids[..i])
      {
        OneMoreListed(old(cache), old(sourceRev), {}, ids, i);
        InvalidateSource(ids[i]);
      }
    }

    method DeleteAll(ids: seq<int>)
      modifies `sourceRev, `cache, `pendingDeletes
      ensures cache == Forget(old(cache), Ids(ids))
      ensures sourceRev == Raised(old(sourceRev), ids)
      ensures pendingDeletes == if CanEnqueue(Q()) then old(pendingDeletes) + Ids(ids) else old(pendingDeletes)
    {
      NoneListed(cache, sourceRev, pendingDeletes, ids);
      hide Forget, Raised, Ids, RevOf;
      for i := 0 to |ids|
        invariant cache == Forget(old(cache), Ids(ids[..i])) && sourceRev == Raised(old(sourceRev), ids[..i])
        invariant pendingDeletes == if CanEnqueue(Q()) then old(pendingDeletes) + Ids(ids[..i]) else old(pendingDeletes)
      {
        OneMoreListed(old(cache), old(sourceRev), old(pendingDeletes), ids, i);
        var _ := EnqueueDeleteSourceFiles(ids[i]);
      }
    }

    method RefreshAll(ids: seq<int>)
      modifies `pendingSources
      ensures pendingSources == if CanEnqueue(Q()) then old(pendingSources) + Ids(ids) else old(pendingSources)
    {
      for i := 0 to |ids|
        invariant pendingSources == if CanEnqueue(Q()) then old(pendingSources) + Ids(ids[..i]) else old(pendingSources)
      {
        OneMore(ids, i);
        var _ := EnqueueRefreshSource(ids[i]);
      }
      assert ids[..|ids|] == ids;
    }

    method CleanupAll(items: seq<(int, string)>)
      modifies `cleanups
      ensures cleanups == AddCleanups(old(cleanups), Items(items))
    {
      NoCleanups(cleanups);
      assert Items(items[..0]) == {};
      hide AddCleanups;
      for i := 0 to |items|
        invariant cleanups == AddCleanups(old(cleanups), Items(items[..i]))
      {
        assert items[..i + 1] == items[..i] + [items[i]];
        AddTwice(old(cleanups), Items(items[..i]), items[i]);
        assert Items(items[..i + 1]) == Items(items[..i]) + {items[i]};
        var _ := EnqueueRelayCleanup(items[i].0, items[i].1);
      }
      assert items[..|items|] == items;
    }

    method RebuildAll(ids: seq<int>)
      modifies `pendingRelays
      ensures pendingRelays == if CanEnqueue(Q()) then old(pendingRelays) + Positive(Ids(ids)) else old(pendingRelays)
    {
      NoRebuild(ids);
      NoCleanups(cleanups);
      hide AddCleanups, Positive, Ids;
      if ids != [] {
        var _ := EnqueueRebuildRelays(ids);
      }
    }

    /** The first two lists. */
    method ForgetSources(invalidate: seq<int>, deletes: seq<int>)
      modifies `sourceRev, `cache, `pendingDeletes
      ensures cache == Forget(old(cache), Ids(invalidate) + Ids(deletes)) && sourceRev == Raised(old(sourceRev), invalidate + deletes)
      ensures pendingDeletes == if CanEnqueue(Q()) then old(pendingDeletes) + Ids(deletes) else old(pendingDeletes)
    {
      ForgetMore(cache, Ids(invalidate), Ids(deletes));
      RaisedTwice(sourceRev, invalidate, deletes);
      hide Raised, Forget, Ids;
      InvalidateAll(invalidate);
      DeleteAll(deletes);
    }

    /** The lists in their order, errors noted and passed over: together one step. */
    method ApplyDerivedWork(work: DerivedWork)
      modifies `sourceRev, `cache, `pendingDeletes, `pendingSources, `pendingRelays, `cleanups
      ensures Abs() == ApplyWork(old(Abs()), work.AsSets()).(revs := Raised(old(sourceRev), work.invalidate + work.deletes))
      ensures NoRepeats(work.invalidate) && NoRepeats(work.deletes) ==> Abs() == ApplyWork(old(Abs()), work.AsSets())
    {
      hide AddCleanups, Bumped, Raised, Forget, Ids, Items, Positive, NoRepeats, Enqueue;
      ForgetSources(work.invalidate, work.deletes);
      RefreshAll(work.refresh);
      RebuildAll(work.rebuild);
      CleanupAll(work.cleanups);
      EnqueueIs(old(Q()), work.AsSets(), Q());
      if NoRepeats(work.invalidate) && NoRepeats(work.deletes) {
        RaisedIsBumped(old(sourceRev), work.invalidate, work.deletes);
      }
    }

    // -------------------------------------------------------------- sources

    /** deleteSourceFiles: the manifest, the generation files, the index files, the tag. */
    method DeleteSourceFiles(id: int)
      modifies `cache
      ensures cache == Wipe(old(cache), id)
    {
      var files := cache.live;
      var live := cache.live;
      while files != {}
        invariant live == set g | g in cache.live && (g in files || (g in cache.gens ==> cache.gens[g].source != id))
        decreases files
      {
        var g :| g in files;
        if g in cache.gens && cache.gens[g].source == id {
          live := live - {g};
        }
        files := files - {g};
      }
      var entries := cache.indexes.Keys;
      var indexes := cache.indexes;
      while entries != {}
        invariant indexes == map g | g in cache.indexes && (g in entries || (g in cache.gens ==> cache.gens[g].source != id)) :: cache.indexes[g]
        decreases entries
      {
        var g :| g in entries;
        if g in cache.gens && cache.gens[g].source == id {
          indexes := indexes - {g};
        }
        entries := entries - {g};
      }
      cache := cache.(manifests := cache.manifests - {id}, live := live, indexes := indexes, tags := cache.tags - {id});
    }

    method DeleteNext() returns (id: int)
      requires busy.Idle? && pendingDeletes != {}
      modifies `pendingDeletes, `cache
      ensures id in old(pendingDeletes) && pendingDeletes == old(pendingDeletes) - {id}
      ensures Abs() == TakeDeleteStep(old(Abs()), id)
    {
      id := Pick(pendingDeletes);
      pendingDeletes := pendingDeletes - {id};
      hide Wipe;
      DeleteSourceFiles(id);
    }

    /** processSource up to the fetch. */
    method TakeNextSource() returns (id: int, fetch: bool, rev: nat, url: string, began: nat)
      requires busy.Idle? && pendingSources != {}
      modifies `pendingSources, `cache, `busy
      ensures id in old(pendingSources) && pendingSources == old(pendingSources) - {id}
      ensures Abs() == TakeSourceStep(old(Abs()), id)
      ensures fetch <==> id in db.sources && !(id in nextRetry && now < nextRetry[id])
      ensures if fetch then busy == Fetching(id, rev, url, began) && url == db.sources[id].url else busy.Idle?
    {
      id := Pick(pendingSources);
      pendingSources := pendingSources - {id};
      fetch, rev, url, began := false, RevOf(sourceRev, id), "", now;
      hide Wipe, RevOf;
      if id !in db.sources {
        DeleteSourceFiles(id);
      } else if !(id in nextRetry && now < nextRetry[id]) {
        fetch, url := true, db.sources[id].url;
        busy := Fetching(id, rev, url, began);
      }
    }

    method CancelFetch()
      requires busy.Fetching?
      modifies `busy
      ensures Abs() == CancelSourceStep(old(Abs())) && busy.Idle?
    {
      busy := Idle;
    }

    method FetchFailed(id: int)
      requires busy.Fetching? && busy.source == id
      modifies `nextRetry, `failBackoff, `busy
      ensures Abs() == FinishFetchStep(old(Abs()), None, []) && busy.Idle?
    {
      var backoff := if id in failBackoff then failBackoff[id] else 0;
      if backoff <= 0 {
        backoff := FIRST_BACKOFF;
      } else if backoff < BACKOFF_LIMIT {
        backoff := backoff * 2;
      }
      failBackoff := failBackoff[id := backoff];
      nextRetry := nextRetry[id := now + backoff];
      busy := Idle;
    }

    /** The fetched document is dropped if the source moved on, else becomes the generation
        the manifest names. */
    method Fetched(id: int, rev: nat, url: string, began: nat, doc: Doc, channels: seq<ChannelInfo>) returns (gen: Option<nat>)
      requires busy == Fetching(id, rev, url, began) && IsIndexOf(channels, doc)
      modifies `cache, `busy
      ensures Abs() == FinishFetchStep(old(Abs()), Some(doc), channels)
      ensures if gen.Some? then id in db.sources && busy == Published(id, gen.value, Url(db.sources[id].url), channels, began) else busy.Idle?
    {
      hide Url, RevOf, IsIndexOf;
      gen := None;
      if id !in db.sources || RevOf(sourceRev, id) != rev || Url(db.sources[id].url) != Url(url) {
        busy := Idle;
      } else {
        gen := Some(cache.next);
        cache := Publish(cache, id, db.sources[id].url, url, doc, channels);
        busy := Published(id, gen.value, Url(db.sources[id].url), channels, began);
      }
    }

    method RelaysReferencingSource(id: int) returns (ids: seq<int>)
      ensures Ids(ids) == Referencing(db, id) && NoRepeats(ids)
    {
      ids := [];
      var todo := db.members.Keys;
      var seen: set<int> := {};
      while todo != {}
        invariant todo <= db.members.Keys && NoRepeats(ids) && Ids(ids) == seen
        invariant seen == set k | k in db.members && k !in todo && References(db, k, id) :: db.members[k].relay
        decreases todo
      {
        var k := Pick(todo);
        todo := todo - {k};
        if References(db, k, id) && db.members[k].relay !in seen {
          seen := seen + {db.members[k].relay};
          ids := ids + [db.members[k].relay];
        }
      }
    }

    /** MarkEPGSourceRefresh; no row, no mark. */
    method MarkRefreshed(id: int, began: nat)
      modifies `lastRefresh
      ensures lastRefresh == if id in db.sources then old(lastRefresh)[id := began] else old(lastRefresh)
    {
      if id in db.sources {
        lastRefresh := lastRefresh[id := began];
      }
    }

    method TagSource(id: int, tag: Tag)
      modifies `cache, `nextRetry, `failBackoff
      ensures cache == SetTag(old(cache), id, tag)
      ensures nextRetry == old(nextRetry) - {id} && failBackoff == old(failBackoff) - {id}
    {
      cache := cache.(tags := cache.tags[id := tag]);
      nextRetry, failBackoff := nextRetry - {id}, failBackoff - {id};
    }

    method RebuildReferencing(id: int)
      modifies `pendingRelays
      ensures Q() == Enqueue(old(Q()), NO_WORK.(rebuild := Referencing(db, id)))
      ensures old(pendingRelays) <= pendingRelays
    {
      hide Referencing, Ids, NoRepeats, Enqueue;
      EnqueueGrows(Q(), NO_WORK.(rebuild := Referencing(db, id)));
      var ids := RelaysReferencingSource(id);
      var _ := EnqueueRebuildRelays(ids);
    }

    method FinishSource(id: int, gen: nat, url: string, channels: seq<ChannelInfo>, began: nat)
      requires busy == Published(id, gen, url, channels, began)
      modifies `cache, `nextRetry, `failBackoff, `lastRefresh, `pendingRelays, `busy
      ensures Abs() == FinishSourceStep(old(Abs())) && busy.Idle?
      ensures old(pendingRelays) <= pendingRelays
    {
      hide Referencing, Enqueue, SetTag;
      TagSource(id, Tag(url, gen, channels));
      MarkRefreshed(id, began);
      busy := Idle;
      RebuildReferencing(id);
    }

    /** One source: `fetched` is what the fetch of it returns; `cancelled` is the context's
        error just before the fetch. */
    method ProcessNextSource(fetched: (int, string) -> Option<Doc>, cancelled: bool, le: (ChannelInfo, ChannelInfo) -> bool)
      returns (id: int, ghost es: seq<Event>)
      requires busy.Idle? && pendingSources != {}
      modifies `pendingSources, `cache, `busy, `nextRetry, `failBackoff, `lastRefresh, `pendingRelays
      ensures id in old(pendingSources) && pendingSources == old(pendingSources) - {id}
      ensures es != [] && es[0] == TakeSource(id)
      ensures |es| > 1 <==> id in db.sources && !(id in old(nextRetry) && now < old(nextRetry)[id])
      ensures |es| > 1 ==> if cancelled then es[1] == CancelSource else es[1].FinishFetch? && es[1].result == fetched(id, db.sources[id].url)
      ensures busy.Idle? && Leads(old(Abs()), es, Abs())
      ensures old(pendingRelays) <= pendingRelays
    {
      hide Leads, IsIndexOf, Url, TakeSourceStep, CancelSourceStep;
      LeadsNowhere(Abs());
      ghost var w0 := Abs();
      var fetch, rev, url, began;
      id, fetch, rev, url, began := TakeNextSource();
      es := [] + [TakeSource(id)];
      ThenTakeSource(w0, [], w0, id);
      if fetch {
        if cancelled {
          ThenCancelSource(w0, es, Abs());
          CancelFetch();
          es := es + [CancelSource];
        } else {
          es := FetchAndPublish(id, rev, url, began, fetched(id, url), le, w0, es);
        }
      }
    }

    method FetchAndPublish(id: int, rev: nat, url: string, began: nat, result: Option<Doc>, le: (ChannelInfo, ChannelInfo) -> bool, ghost w0: World, ghost es0: seq<Event>)
      returns (ghost es: seq<Event>)
      requires busy == Fetching(id, rev, url, began) && Leads(w0, es0, Abs())
      modifies `cache, `busy, `nextRetry, `failBackoff, `lastRefresh, `pendingRelays
      ensures busy.Idle? && Leads(w0, es, Abs())
      ensures |es0| < |es| && es[..|es0|] == es0 && es[|es0|].FinishFetch? && es[|es0|].result == result
      ensures old(pendingRelays) <= pendingRelays
    {
      hide Leads, IsIndexOf, Url, FinishFetchStep, FinishSourceStep;
      if result.None? {
        ThenFinishFetch(w0, es0, Abs(), None, []);
        FetchFailed(id);
        es := es0 + [Event.FinishFetch(None, [])];
      } else {
        var channels := IndexFromDoc(result.value, le);
        ThenFinishFetch(w0, es0, Abs(), result, channels);
        var gen := Fetched(id, rev, url, began, result.value, channels);
        es := es0 + [Event.FinishFetch(result, channels)];
        if gen.Some? {
          ThenFinishSource(w0, es, Abs());
          FinishSource(id, gen.value, Url(db.sources[id].url), channels, began);
          es := es + [Event.FinishSource];
        }
      }
    }

    // -------------------------------------------------------------- relays

    method TakeNextRelay() returns (r: int, build: bool)
      requires busy.Idle? && pendingRelays != {}
      modifies `pendingRelays, `busy
      ensures r in old(pendingRelays) && pendingRelays == old(pendingRelays) - {r}
      ensures Abs() == TakeRelayStep(old(Abs()), r)
      ensures build <==> r in db.relays
      ensures if build
              then busy == Building(r, db.relays[r].slug, db.relays[r].stamp, Mappings(db, r), map[])
              else busy.Idle?
    {
      hide Mappings;
      r := Pick(pendingRelays);
      pendingRelays := pendingRelays - {r};
      build := r in db.relays;
      if build {
        busy := Building(r, db.relays[r].slug, db.relays[r].stamp, Mappings(db, r), map[]);
      }
    }

    /** One needed source: its document, or none if it is unknown or not eligible. */
    method LoadSource(s: int) returns (doc: Option<Doc>)
      requires busy.Building?
      modifies `busy
      ensures Abs() == LoadDocStep(old(Abs()), s)
      ensures if doc.Some? then busy == old(busy).(docs := old(busy).docs[s := doc.value]) else busy.Idle?
      ensures doc == if Loadable(db, cache, s) then Some(cache.gens[cache.manifests[s].gen].doc) else None
    {
      doc := None;
      if Eligible(db, cache, s) && cache.manifests[s].gen in cache.gens {
        doc := Some(cache.gens[cache.manifests[s].gen].doc);
        busy := busy.(docs := busy.docs[s := doc.value]);
      } else {
        busy := Idle;
      }
    }

    method LoadSources(ms: set<Mapping>, ghost w0: World, ghost es0: seq<Event>)
      returns (docs: Option<map<int, Doc>>, ghost es: seq<Event>)
      requires busy.Building? && busy.ms == ms && busy.docs == map[] && Leads(w0, es0, Abs())
      modifies `busy
      ensures Leads(w0, es, Abs())
      ensures if docs.Some?
              then docs.value.Keys == Sources(ms) && busy == old(busy).(docs := docs.value)
              else busy.Idle?
      ensures docs.Some? <==> forall s :: s in Sources(ms) ==> Loadable(db, cache, s)
      ensures docs.Some? ==> docs.value == Freshness.Docs(cache, ms)
    {
      hide Leads, LoadDocStep, Sources, Eligible;
      es := es0;
      docs := Some(map[]);
      var needed := Sources(ms);
      while needed != {}
        invariant docs.Some? && needed <= Sources(ms) && docs.value.Keys == Sources(ms) - needed
        invariant busy == old(busy).(docs := docs.value) && Leads(w0, es, Abs())
        invariant DocsAreLoaded(db, cache, docs.value)
        decreases needed
      {
        var s := Pick(needed);
        ThenLoadDoc(w0, es, Abs(), s);
        var doc := LoadSource(s);
        es := es + [LoadDoc(s)];
        if doc.None? {
          return None, es;
        }
        docs := Some(docs.value[s := doc.value]);
        needed := needed - {s};
      }
      AllLoaded(db, cache, ms, docs.value);
    }

    method WriteRelayCache(slug: string, stamp: nat, r: int, ms: set<Mapping>, docs: map<int, Doc>)
      requires busy == Building(r, slug, stamp, ms, docs) && Stored(ms) && docs.Keys == Sources(ms)
      modifies `xml, `busy
      ensures Abs() == WriteRelayStep(old(Abs())) && busy.Idle?
      ensures xml == old(xml)[slug := XmlFile(Build(ms, docs), r, stamp)]
    {
      hide Sources, Stored, Build;
      var merged := MergeAll(ms, docs);
      xml := xml[slug := XmlFile(merged, r, stamp)];
      busy := Idle;
    }

    /** Some pending relay: its file is written exactly when it can be built, and no other. */
    method ProcessNextRelay() returns (r: int, ghost es: seq<Event>)
      requires busy.Idle? && pendingRelays != {} && DbInv(db)
      modifies `pendingRelays, `xml, `busy
      ensures busy.Idle? && r in old(pendingRelays) && pendingRelays == old(pendingRelays) - {r}
      ensures Leads(old(Abs()), es, Abs())
      ensures xml == if Buildable(db, cache, r) then old(xml)[db.relays[r].slug := Built(db, cache, r)] else old(xml)
    {
      hide Leads, TakeRelayStep, WriteRelayStep, Mappings, DbInv, Build, Loadable, Freshness.Docs;
      LeadsNowhere(Abs());
      ghost var w0 := Abs();
      var build;
      r, build := TakeNextRelay();
      es := [] + [TakeRelay(r)];
      ThenTakeRelay(w0, [], w0, r);
      if build {
        var ms := Mappings(db, r);
        PairsStored(db, r);
        var docs;
        docs, es := LoadSources(ms, w0, es);
        assert docs.Some? <==> Buildable(db, cache, r);
        if docs.Some? {
          ThenWriteRelay(w0, es, Abs());
          WriteRelayCache(db.relays[r].slug, db.relays[r].stamp, r, ms, docs.value);
          es := es + [WriteRelay];
          assert xml == old(xml)[db.relays[r].slug := Built(db, cache, r)];
        }
      }
    }

    // -------------------------------------------------------------- cleanups

    ghost function ReadyOnes(): set<int>
      reads `cleanups, `now
    {
      ReadyAt(cleanups, now)
    }

    /** takeCleanupReady: any entry whose retry time is not ahead. */
    method FindReady() returns (next: Option<int>)
      ensures next.Some? ==> next.value in cleanups && Ready(cleanups[next.value], now)
      ensures next.None? ==> ReadyOnes() == {}
    {
      var ids := cleanups.Keys;
      while ids != {}
        invariant ids <= cleanups.Keys
        invariant forall r :: r in cleanups && r !in ids ==> !Ready(cleanups[r], now)
        decreases ids
      {
        var id := Pick(ids);
        if cleanups[id].retryAfter <= now {
          return Some(id);
        }
        ids := ids - {id};
      }
      next := None;
      forall r ensures r !in ReadyOnes() {
      }
    }

    method TakeReady(r: int) returns (row: Option<Relay>, slugs: set<string>)
      requires busy.Idle? && r in cleanups
      modifies `cleanups, `busy
      ensures Abs() == TakeCleanupStep(old(Abs()), r)
      ensures busy == Cleaning(r, row, slugs, {}) && cleanups == old(cleanups) - {r} && slugs == old(cleanups)[r].slugs
      ensures row.Some? ==> r in db.relays && row.value == db.relays[r]
    {
      row := if r in db.relays then Some(db.relays[r]) else None;
      slugs := cleanups[r].slugs;
      cleanups := cleanups - {r};
      busy := Cleaning(r, row, slugs, {});
    }

    method IsOwned(slug: string) returns (owned: bool)
      ensures owned == Owned(db, slug)
    {
      var ids := db.relays.Keys;
      while ids != {}
        invariant ids <= db.relays.Keys
        invariant forall r :: r in db.relays && r !in ids ==> db.relays[r].slug != slug
        decreases ids
      {
        var id := Pick(ids);
        if db.relays[id].slug == slug {
          return true;
        }
        ids := ids - {id};
      }
      owned := false;
    }

    /** One slug of processCleanup's loop; true when it has to wait. */
    method ProcessSlug(row: Option<Relay>, slug: string) returns (wait: bool)
      requires busy.Cleaning? && busy.row == row
      modifies `xml, `busy
      ensures Abs() == CleanSlugStep(old(Abs()), slug)
      ensures busy == old(busy).(todo := old(busy).todo - {slug}, left := old(busy).left + if wait then {slug} else {})
      ensures wait || slug == "" || slug !in xml || Owned(db, slug) || (row.Some? && row.value.slug == slug)
      ensures xml == old(xml) || (xml == old(xml) - {slug} && !Owned(db, slug))
    {
      hide Owned;
      wait := false;
      ghost var before := busy;
      busy := busy.(todo := busy.todo - {slug});
      var owned := IsOwned(slug);
      if slug != "" && !owned && !(row.Some? && row.value.slug == slug) {
        if row.Some? && row.value.slug !in xml {
          wait := true;
          busy := busy.(left := busy.left + {slug});
        } else {
          xml := xml - {slug};
        }
      }
      assert before.left + {} == before.left;
    }

    method DeferCleanup(r: int, slugs: set<string>)
      requires busy.Cleaning? && busy.relay == r && busy.left == slugs
      modifies `cleanups, `busy
      ensures Abs() == FinishCleanupStep(old(Abs())) && busy.Idle?
      ensures r > 0 && slugs != {} ==> r in cleanups && slugs <= cleanups[r].slugs && !Ready(cleanups[r], now)
      ensures cleanups == old(cleanups) || (r in cleanups && !Ready(cleanups[r], now) && cleanups == old(cleanups)[r := cleanups[r]])
    {
      busy := Idle;
      if r > 0 && slugs != {} {
        cleanups := cleanups[r := Cleanup(Waiting(cleanups, r) + slugs, now + RETRY_DELAY)];
      }
    }

    /** processCleanup of one ready entry. */
    method ProcessReady(r: int) returns (ghost es: seq<Event>)
      requires busy.Idle? && r in cleanups && Ready(cleanups[r], now) && r > 0
      modifies `cleanups, `xml, `busy
      ensures busy.Idle? && Leads(old(Abs()), es, Abs())
      ensures r in cleanups ==> !Ready(cleanups[r], now)
      ensures forall q :: q != r ==> (q in cleanups <==> q in old(cleanups)) && (q in cleanups ==> cleanups[q] == old(cleanups)[q])
      ensures forall slug :: slug in old(cleanups)[r].slugs ==> Disposed(db, xml, cleanups, now, r, slug)
      ensures OwnedKept(db, old(xml), xml)
    {
      hide Leads, TakeCleanupStep, CleanSlugStep, FinishCleanupStep, Owned, OwnedKept;
      LeadsNowhere(Abs());
      AllKept(db, xml);
      ghost var w0 := Abs();
      ThenTakeCleanup(w0, [], w0, r);
      var row, slugs := TakeReady(r);
      es := [] + [TakeCleanup(r)];
      if row.Some? {
        RowOwns(db, r);
      }
      var todo, left := slugs, {};
      while todo != {}
        invariant todo <= slugs && left <= slugs
        invariant busy == Cleaning(r, row, todo, left) && Leads(w0, es, Abs())
        invariant cleanups == old(cleanups) - {r}
        invariant forall s :: s in slugs && s !in todo ==> s in left || s == "" || s !in xml || Owned(db, s)
        invariant OwnedKept(db, old(xml), xml)
        decreases todo
      {
        var s := Pick(todo);
        ThenCleanSlug(w0, es, Abs(), s);
        ghost var was := xml;
        var wait := ProcessSlug(row, s);
        KeptOn(db, old(xml), was, xml, s);
        es := es + [CleanSlug(s)];
        todo := todo - {s};
        left := left + if wait then {s} else {};
      }
      ThenFinishCleanup(w0, es, Abs());
      DeferCleanup(r, left);
      es := es + [FinishCleanup];
    }

    // -------------------------------------------------------------- drain

    method DrainDeletes(ghost w0: World, ghost es0: seq<Event>) returns (worked: bool, ghost es: seq<Event>)
      requires busy.Idle? && Leads(w0, es0, Abs())
      modifies `pendingDeletes, `cache
      ensures Leads(w0, es, Abs()) && pendingDeletes == {}
      ensures worked <==> old(pendingDeletes) != {}
      ensures !worked ==> cache == old(cache)
    {
      hide Leads, TakeDeleteStep;
      worked, es := false, es0;
      while pendingDeletes != {}
        invariant !worked ==> cache == old(cache)
        invariant Leads(w0, es, Abs()) && pendingDeletes <= old(pendingDeletes)
        invariant worked <==> pendingDeletes != old(pendingDeletes)
        decreases pendingDeletes
      {
        worked := true;
        ghost var w := Abs();
        var id := DeleteNext();
        ThenTakeDelete(w0, es, w, id);
        es := es + [TakeDelete(id)];
      }
    }

    /** `context` says of each check of the context whether it was cancelled by then. */
    method DrainSources(fetched: (int, string) -> Option<Doc>, context: nat -> bool, check: nat, le: (ChannelInfo, ChannelInfo) -> bool,
                        ghost w0: World, ghost es0: seq<Event>)
      returns (worked: bool, checks: nat, ghost es: seq<Event>)
      requires busy.Idle? && Leads(w0, es0, Abs())
      modifies `pendingSources, `cache, `busy, `nextRetry, `failBackoff, `lastRefresh, `pendingRelays
      ensures busy.Idle? && Leads(w0, es, Abs()) && pendingSources == {} && check <= checks
      ensures worked <==> old(pendingSources) != {}
      ensures !worked ==> pendingRelays == old(pendingRelays) && cache == old(cache)
      ensures old(pendingRelays) <= pendingRelays
    {
      hide Leads;
      worked, checks, es := false, check, es0;
      while pendingSources != {}
        invariant busy.Idle? && Leads(w0, es, Abs()) && check <= checks
        invariant !worked ==> pendingSources == old(pendingSources) && pendingRelays == old(pendingRelays) && cache == old(cache)
        invariant old(pendingRelays) <= pendingRelays
        invariant worked ==> old(pendingSources) != {}
        decreases |pendingSources|
      {
        worked := true;
        ghost var w := Abs();
        var _, more := ProcessNextSource(fetched, context(checks), le);
        LeadsThrough(w0, es, w, more, Abs());
        es := es + more;
        checks := checks + 1;
      }
    }

    method DrainRelays(ghost w0: World, ghost es0: seq<Event>) returns (worked: bool, ghost es: seq<Event>)
      requires busy.Idle? && Leads(w0, es0, Abs()) && DbInv(db)
      modifies `pendingRelays, `xml, `busy
      ensures busy.Idle? && Leads(w0, es, Abs()) && pendingRelays == {}
      ensures worked <==> old(pendingRelays) != {}
      ensures !worked ==> xml == old(xml)
      ensures forall r :: r in old(pendingRelays) ==> IsBuilt(db, cache, xml, r)
    {
      hide Leads, DbInv, Buildable, Built;
      worked, es := false, es0;
      while pendingRelays != {}
        invariant busy.Idle? && Leads(w0, es, Abs()) && pendingRelays <= old(pendingRelays)
        invariant !worked ==> xml == old(xml)
        invariant forall r :: r in old(pendingRelays) && r !in pendingRelays ==> IsBuilt(db, cache, xml, r)
        invariant if worked then old(pendingRelays) != {} else pendingRelays == old(pendingRelays)
        decreases |pendingRelays|
      {
        worked := true;
        ghost var w, was, todo := Abs(), xml, pendingRelays;
        var r, more := ProcessNextRelay();
        LeadsThrough(w0, es, w, more, Abs());
        es := es + more;
        OneMoreBuilt(db, cache, was, xml, r, old(pendingRelays) - todo);
      }
    }

    method DrainCleanups(ghost w0: World, ghost es0: seq<Event>) returns (worked: bool, ghost es: seq<Event>)
      requires busy.Idle? && Leads(w0, es0, Abs())
      requires forall r :: r in cleanups ==> r > 0
      modifies `cleanups, `xml, `busy
      ensures busy.Idle? && Leads(w0, es, Abs()) && ReadyOnes() == {}
      ensures worked <==> old(ReadyOnes()) != {}
      ensures cleanups.Keys <= old(cleanups).Keys && OwnedKept(db, old(xml), xml)
      ensures !worked ==> xml == old(xml)
    {
      hide Leads, Ready, OwnedKept;
      AllKept(db, xml);
      worked, es := false, es0;
      var next := FindReady();
      while next.Some?
        invariant busy.Idle? && Leads(w0, es, Abs())
        invariant if next.Some? then next.value in ReadyOnes() else ReadyOnes() == {}
        invariant if worked then old(ReadyOnes()) != {} else ReadyOnes() == old(ReadyOnes())
        invariant cleanups.Keys <= old(cleanups).Keys && OwnedKept(db, old(xml), xml)
        invariant !worked ==> xml == old(xml)
        decreases ReadyOnes()
      {
        worked := true;
        ghost var w, before, was := Abs(), cleanups, xml;
        ghost var more := ProcessReady(next.value);
        KeptTwice(db, old(xml), was, xml);
        OneLessReady(before, cleanups, now, next.value);
        LeadsThrough(w0, es, w, more, Abs());
        es := es + more;
        next := FindReady();
      }
    }

    /** One pass: deletions, sources, relays, then cleanups, so that a renamed relay's new
        file comes before its old one goes. */
    method DrainOnce(fetched: (int, string) -> Option<Doc>, context: nat -> bool, check: nat, le: (ChannelInfo, ChannelInfo) -> bool,
                     ghost w0: World, ghost es0: seq<Event>)
      returns (worked: bool, checks: nat, ghost es: seq<Event>)
      requires busy.Idle? && Leads(w0, es0, Abs()) && DbInv(db) && forall r :: r in cleanups ==> r > 0
      modifies this
      ensures busy.Idle? && Leads(w0, es, Abs()) && Drained()
      ensures db == old(db) && now == old(now) && forall r :: r in cleanups ==> r > 0
      ensures worked <==> !old(Drained())
      ensures !worked ==> cache == old(cache) && xml == old(xml)
      ensures forall r :: r in old(pendingRelays) ==> IsBuilt(db, cache, xml, r)
    {
      hide Leads, DbInv, Ready, IsBuilt, OwnedKept;
      var w1, w2, w3, w4;
      w1, es := DrainDeletes(w0, es0);
      w2, checks, es := DrainSources(fetched, context, check, le, w0, es);
      w3, es := DrainRelays(w0, es);
      ghost var was := xml;
      w4, es := DrainCleanups(w0, es);
      worked := w1 || w2 || w3 || w4;
      forall r | r in old(pendingRelays) ensures IsBuilt(db, cache, xml, r) {
        KeptBuilt(db, cache, was, xml, r);
      }
    }

    /** Nothing pending, no cleanup ready. */
    ghost predicate Drained()
      reads `pendingDeletes, `pendingSources, `pendingRelays, `cleanups, `now
    {
      pendingDeletes == {} && pendingSources == {} && pendingRelays == {} && ReadyOnes() == {}
    }

    lemma LeavesFresh(w0: World, es: seq<Event>)
      requires Leads(w0, es, Abs())
      ensures Freshness.FreshInv(w0) ==> Freshness.FreshInv(Abs())
      ensures Freshness.FreshInv(w0) && CanEnqueue(Q()) && busy.Idle? && Drained() ==> Freshness.AllCurrent(Abs())
    {
      hide Leads, CanEnqueue, Freshness.FreshInv, Freshness.AllCurrent;
      if Freshness.FreshInv(w0) {
        Freshness.DrainedIsFresh(w0, es, Abs());
      }
    }

    /** drain. Without outside enqueues and with the clock standing still it ends, and unless
        the context was cancelled it leaves nothing pending and no cleanup ready, and every
        relay that was pending has its file if the documents it needs are there; begun in any
        state the service can reach, it leaves every relay's own file current as far as the
        sources it needs are eligible. */
    method Drain(fetched: (int, string) -> Option<Doc>, context: nat -> bool, le: (ChannelInfo, ChannelInfo) -> bool)
      returns (cancelled: bool, ghost es: seq<Event>)
      requires busy.Idle? && DbInv(db) && forall r :: r in cleanups ==> r > 0
      modifies this
      ensures busy.Idle? && Leads(old(Abs()), es, Abs())
      ensures if cancelled then exists check :: context(check) else Drained()
      ensures db == old(db) && now == old(now)
      ensures !cancelled ==> forall r :: r in old(pendingRelays) ==> IsBuilt(db, cache, xml, r)
      ensures Freshness.FreshInv(old(Abs())) ==>
                Freshness.FreshInv(Abs()) && (!cancelled && CanEnqueue(Q()) ==> Freshness.AllCurrent(Abs()))
    {
      hide Leads, DbInv, Ready, IsBuilt, Freshness.FreshInv, Freshness.AllCurrent;
      LeadsNowhere(Abs());
      ghost var w0 := Abs();
      es := [];
      var checks, worked := 0, true;
      while worked
        invariant busy.Idle? && Leads(w0, es, Abs())
        invariant db == old(db) && now == old(now) && forall r :: r in cleanups ==> r > 0
        invariant !worked ==> Drained()
        invariant pendingRelays == old(pendingRelays) || (Drained() && forall r :: r in old(pendingRelays) ==> IsBuilt(db, cache, xml, r))
        decreases worked, |pendingDeletes| + |pendingSources|, |pendingRelays|, |ReadyOnes()|
      {
        if context(checks) {
          LeavesFresh(w0, es);
          return true, es;
        }
        worked, checks, es := DrainOnce(fetched, context, checks + 1, le, w0, es);
      }
      cancelled := false;
      LeavesFresh(w0, es);
    }
  }
}
