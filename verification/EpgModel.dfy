/** The guide worker of internal/core/epg/worker.go together with the store and the files it
    works on, as a state machine. One step is one store transaction with its enqueueing, one
    region under the service lock, or one file operation of the worker; the worker's fetches
    and builds stay in flight while other steps happen. */
module EpgModel {
  import opened Seqs
  import opened RelayXml
  import opened Library
  import opened SourceCache

  /** A relay's XML file remembers which incarnation of which relay wrote it. */
  datatype XmlFile = XmlFile(content: Rendered, writer: int, stamp: nat)

  /** relayCleanupState; retryAfter 0 is the zero time. */
  datatype Cleanup = Cleanup(slugs: set<string>, retryAfter: nat)

  datatype Queues = Queues(
    admitOpen: bool, held: nat,
    deletes: set<int>, sources: set<int>, relays: set<int>, cleanups: map<int, Cleanup>)

  /** Times and delays in seconds; `last` is the column last_refresh_at. */
  datatype Timers = Timers(now: nat, nextRetry: map<int, nat>, backoff: map<int, nat>, last: map<int, nat>)

  /** What the worker has taken and not finished. */
  datatype Busy =
    | Idle
    | Fetching(source: int, seen: nat, url: string, began: nat)
    | Published(source: int, gen: nat, url: string, channels: seq<ChannelInfo>, began: nat)
    | Building(relay: int, slug: string, stamp: nat, ms: set<Mapping>, docs: map<int, Doc>)
    | Cleaning(relay: int, row: Option<Relay>, todo: set<string>, left: set<string>)

  datatype World = World(
    db: Db, cache: Cache, xml: map<string, XmlFile>, q: Queues, revs: map<int, nat>, timers: Timers, busy: Busy)

  const RETRY_DELAY := 1
  const FIRST_BACKOFF := 1
  const BACKOFF_LIMIT := 300

  datatype Event =
    | Acquire | Release | CloseAdmission | Tick(seconds: nat)
    | Mutate(m: Mutation)
    | RequestRefresh(sources: set<int>)
    | RequestRebuild(relays: set<int>)
    | TakeDelete(source: int)
    | TakeSource(source: int)
    | CancelSource
    | FinishFetch(result: Option<Doc>, channels: seq<ChannelInfo>)
    | FinishSource
    | TakeRelay(relay: int)
    | LoadDoc(source: int)
    | WriteRelay
    | TakeCleanup(relay: int)
    | CleanSlug(slug: string)
    | FinishCleanup
    | OpenLookup(t: nat, source: int)
    | LoadLookup(t: nat, channels: seq<ChannelInfo>)
    | StoreLookup(t: nat)

  // ---------------------------------------------------------------- queues

  /** enqueueLocked takes work while admission is open or held. */
  predicate CanEnqueue(q: Queues) {
    q.admitOpen || q.held > 0
  }

  /** Which relays and slugs a list of cleanups names; blank ones are dropped. */
  function Named(more: set<(int, string)>): set<int> {
    set c | c in more && c.0 > 0 && c.1 != "" :: c.0
  }

  function SlugsOf(more: set<(int, string)>, r: int): set<string> {
    set c | c in more && c.0 == r && c.1 != "" :: c.1
  }

  function Waiting(cleanups: map<int, Cleanup>, r: int): set<string> {
    if r in cleanups then cleanups[r].slugs else {}
  }

  /** EnqueueRelayCleanup, which queues even when it reports closed admission. */
  function AddCleanups(cleanups: map<int, Cleanup>, more: set<(int, string)>): map<int, Cleanup> {
    map r | r in cleanups.Keys + Named(more) ::
      if r in Named(more) then Cleanup(Waiting(cleanups, r) + SlugsOf(more, r), 0) else cleanups[r]
  }

  lemma OneCleanup(cleanups: map<int, Cleanup>, relay: int, slug: string)
    ensures AddCleanups(cleanups, {(relay, slug)})
         == if relay > 0 && slug != "" then cleanups[relay := Cleanup(Waiting(cleanups, relay) + {slug}, 0)] else cleanups
  {
    var more := {(relay, slug)};
    if relay > 0 && slug != "" {
      assert (relay, slug) in more;
      assert Named(more) == {relay};
      assert SlugsOf(more, relay) == {slug};
    } else {
      assert Named(more) == {};
    }
  }

  /** EnqueueRebuildRelays passes over ids that are not positive. */
  function Positive(ids: set<int>): set<int> {
    set r | r in ids && r > 0
  }

  function Enqueue(q: Queues, work: Work): Queues {
    var q1 := q.(cleanups := AddCleanups(q.cleanups, work.cleanups));
    if CanEnqueue(q)
    then q1.(deletes := q.deletes + work.deletes, sources := q.sources + work.refresh,
             relays := q.relays + Positive(work.rebuild))
    else q1
  }

  function RevOf(revs: map<int, nat>, source: int): nat {
    if source in revs then revs[source] else 0
  }

  /** Invalidation and queued deletion each move the revision on. */
  function Bumped(revs: map<int, nat>, invalidate: set<int>, deletes: set<int>): map<int, nat> {
    map s | s in revs.Keys + invalidate + deletes ::
      RevOf(revs, s) + (if s in invalidate then 1 else 0) + (if s in deletes then 1 else 0)
  }

  /** ApplyDerivedWork. */
  function ApplyWork(w: World, work: Work): World {
    w.(cache := Forget(w.cache, work.invalidate + work.deletes),
       revs := Bumped(w.revs, work.invalidate, work.deletes),
       q := Enqueue(w.q, work))
  }

  /** The rows a mutation inserts were never refreshed; deleted ones are gone. */
  function LastAfter(last: map<int, nat>, m: Mutation): map<int, nat> {
    match m
    case CreateSource(id, _) => last - {id}
    case DeleteSource(id) => last - {id}
    case ImportRelay(_, _, sources, _, _, _, _) => last - sources.Keys
    case Restore(_, _, _, _) => map[]
    case _ => last
  }

  function Committed(w: World, m: Mutation): World
    requires Commits(w.db, m)
  {
    w.(db := Commit(w.db, m), timers := w.timers.(last := LastAfter(w.timers.last, m)))
  }

  // ---------------------------------------------------------------- sources

  const MIN_INTERVAL := 60

  /** The source asks for a refresh: it is enabled and its interval has passed, or it never
      had one. */
  predicate Overdue(db: Db, t: Timers, s: int) {
    s in db.sources && db.sources[s].enabled
    && (s !in t.last
        || t.last[s] + (if db.sources[s].interval < MIN_INTERVAL then MIN_INTERVAL else db.sources[s].interval) <= t.now)
  }

  /** What EnqueueRefreshDue queues. */
  function DueSources(db: Db, t: Timers): set<int> {
    set s | s in db.sources && Overdue(db, t, s) && !BackingOff(t, s)
  }

  function NextBackoff(backoff: nat): nat {
    if backoff == 0 then FIRST_BACKOFF else if backoff < BACKOFF_LIMIT then 2 * backoff else backoff
  }

  function BackoffOf(t: Timers, source: int): nat {
    if source in t.backoff then t.backoff[source] else 0
  }

  function Failed(t: Timers, source: int): Timers {
    var b := NextBackoff(BackoffOf(t, source));
    t.(backoff := t.backoff[source := b], nextRetry := t.nextRetry[source := t.now + b])
  }

  predicate BackingOff(t: Timers, source: int) {
    source in t.nextRetry && t.now < t.nextRetry[source]
  }

  /** relaysReferencingSource. */
  function Referencing(db: Db, source: int): set<int> {
    set k | k in db.members && db.members[k].channel in db.channels
            && db.channels[db.members[k].channel].Some?
            && db.channels[db.members[k].channel].value.source == source
         :: db.members[k].relay
  }

  /** The fetch still speaks for the source: it exists, and neither its revision nor its URL moved. */
  predicate StillCurrent(w: World)
    requires w.busy.Fetching?
  {
    var b := w.busy;
    b.source in w.db.sources && RevOf(w.revs, b.source) == b.seen
    && Url(w.db.sources[b.source].url) == Url(b.url)
  }

  function TakeDeleteStep(w: World, s: int): World {
    w.(q := w.q.(deletes := w.q.deletes - {s}), cache := Wipe(w.cache, s))
  }

  function CancelSourceStep(w: World): World {
    w.(busy := Idle)
  }

  function TakeSourceStep(w: World, s: int): World {
    var w1 := w.(q := w.q.(sources := w.q.sources - {s}));
    if s !in w.db.sources then w1.(cache := Wipe(w.cache, s))
    else if BackingOff(w.timers, s) then w1
    else w1.(busy := Fetching(s, RevOf(w.revs, s), w.db.sources[s].url, w.timers.now))
  }

  function FinishFetchStep(w: World, result: Option<Doc>, channels: seq<ChannelInfo>): World
    requires w.busy.Fetching?
  {
    var b := w.busy;
    if result.None? then w.(timers := Failed(w.timers, b.source), busy := Idle)
    else if !StillCurrent(w) then w.(busy := Idle)
    else
      var url := w.db.sources[b.source].url;
      w.(cache := Publish(w.cache, b.source, url, b.url, result.value, channels),
         busy := Published(b.source, w.cache.next, Url(url), channels, b.began))
  }

  function FinishSourceStep(w: World): World
    requires w.busy.Published?
  {
    var b := w.busy;
    w.(cache := SetTag(w.cache, b.source, Tag(b.url, b.gen, b.channels)),
       timers := w.timers.(nextRetry := w.timers.nextRetry - {b.source}, backoff := w.timers.backoff - {b.source},
                           last := if b.source in w.db.sources then w.timers.last[b.source := b.began] else w.timers.last),
       q := Enqueue(w.q, NO_WORK.(rebuild := Referencing(w.db, b.source))),
       busy := Idle)
  }

  // ---------------------------------------------------------------- relays

  predicate Eligible(db: Db, cache: Cache, s: int) {
    s in db.sources && Usable(cache, s, db.sources[s].url)
  }

  function TakeRelayStep(w: World, r: int): World {
    var w1 := w.(q := w.q.(relays := w.q.relays - {r}));
    if r in w.db.relays
    then w1.(busy := Building(r, w.db.relays[r].slug, w.db.relays[r].stamp, Mappings(w.db, r), map[]))
    else w1
  }

  /** A source that is gone or not eligible abandons the build and keeps the old file. */
  function LoadDocStep(w: World, s: int): World
    requires w.busy.Building?
  {
    if Eligible(w.db, w.cache, s) && w.cache.manifests[s].gen in w.cache.gens
    then w.(busy := w.busy.(docs := w.busy.docs[s := w.cache.gens[w.cache.manifests[s].gen].doc]))
    else w.(busy := Idle)
  }

  ghost function WriteRelayStep(w: World): World
    requires w.busy.Building? && Stored(w.busy.ms)
  {
    var b := w.busy;
    w.(xml := w.xml[b.slug := XmlFile(Build(b.ms, b.docs), b.relay, b.stamp)], busy := Idle)
  }

  // ---------------------------------------------------------------- cleanups

  predicate Ready(c: Cleanup, now: nat) {
    c.retryAfter <= now
  }

  predicate Owned(db: Db, slug: string) {
    exists r :: r in db.relays && db.relays[r].slug == slug
  }

  lemma RowOwns(db: Db, r: int)
    requires r in db.relays
    ensures Owned(db, db.relays[r].slug)
  {
  }

  function TakeCleanupStep(w: World, r: int): World
    requires r in w.q.cleanups
  {
    w.(q := w.q.(cleanups := w.q.cleanups - {r}),
       busy := Cleaning(r, if r in w.db.relays then Some(w.db.relays[r]) else None, w.q.cleanups[r].slugs, {}))
  }

  /** One slug: kept if a live relay owns it, retried while the relay's new file is not
      there, removed otherwise. */
  function CleanSlugStep(w: World, slug: string): World
    requires w.busy.Cleaning?
  {
    var b := w.busy;
    var done := b.(todo := b.todo - {slug});
    if slug == "" || Owned(w.db, slug) || (b.row.Some? && b.row.value.slug == slug) then w.(busy := done)
    else if b.row.Some? && b.row.value.slug !in w.xml then w.(busy := done.(left := b.left + {slug}))
    else w.(xml := w.xml - {slug}, busy := done)
  }

  /** deferCleanup. */
  function FinishCleanupStep(w: World): World
    requires w.busy.Cleaning?
  {
    var b := w.busy;
    if b.relay <= 0 || b.left == {} then w.(busy := Idle)
    else
      w.(q := w.q.(cleanups := w.q.cleanups[b.relay := Cleanup(Waiting(w.q.cleanups, b.relay) + b.left, w.timers.now + RETRY_DELAY)]),
         busy := Idle)
  }

  // ---------------------------------------------------------------- the machine

  predicate Enabled(w: World, e: Event) {
    match e
    case Acquire => w.q.admitOpen
    case Release => w.q.held > 0
    case CloseAdmission => true
    case Tick(_) => true
    case Mutate(m) => Commits(w.db, m) && (NeedsAdmission(m) ==> w.q.held > 0)
    case RequestRefresh(_) => true
    case RequestRebuild(_) => true
    case TakeDelete(s) => w.busy.Idle? && s in w.q.deletes
    case TakeSource(s) => w.busy.Idle? && s in w.q.sources
    case CancelSource => w.busy.Fetching?
    case FinishFetch(result, channels) => w.busy.Fetching? && (result.Some? ==> IsIndexOf(channels, result.value))
    case FinishSource => w.busy.Published?
    case TakeRelay(r) => w.busy.Idle? && r in w.q.relays
    case LoadDoc(s) => w.busy.Building? && s in Sources(w.busy.ms) && s !in w.busy.docs
    case WriteRelay => w.busy.Building? && w.busy.docs.Keys == Sources(w.busy.ms) && Stored(w.busy.ms)
    case TakeCleanup(r) => w.busy.Idle? && r in w.q.cleanups && Ready(w.q.cleanups[r], w.timers.now)
    case CleanSlug(slug) => w.busy.Cleaning? && slug in w.busy.todo
    case FinishCleanup => w.busy.Cleaning? && w.busy.todo == {}
    case OpenLookup(t, s) => s in w.db.sources
    case LoadLookup(t, channels) =>
      t in w.cache.lookups && w.cache.lookups[t].Opened? && w.cache.lookups[t].gen in w.cache.gens
      && IsIndexOf(channels, w.cache.gens[w.cache.lookups[t].gen].doc)
    case StoreLookup(t) => t in w.cache.lookups && w.cache.lookups[t].Loaded?
  }

  ghost function Apply(w: World, e: Event): World
    requires Enabled(w, e)
  {
    match e
    case Acquire => w.(q := w.q.(held := w.q.held + 1))
    case Release => w.(q := w.q.(held := w.q.held - 1))
    case CloseAdmission => w.(q := w.q.(admitOpen := false))
    case Tick(seconds) => w.(timers := w.timers.(now := w.timers.now + seconds))
    case Mutate(m) => ApplyWork(Committed(w, m), Derived(w.db, m))
    case RequestRefresh(sources) => w.(q := Enqueue(w.q, NO_WORK.(refresh := sources)))
    case RequestRebuild(relays) => w.(q := Enqueue(w.q, NO_WORK.(rebuild := relays)))
    case TakeDelete(s) => TakeDeleteStep(w, s)
    case TakeSource(s) => TakeSourceStep(w, s)
    case CancelSource => CancelSourceStep(w)
    case FinishFetch(result, channels) => FinishFetchStep(w, result, channels)
    case FinishSource => FinishSourceStep(w)
    case TakeRelay(r) => TakeRelayStep(w, r)
    case LoadDoc(s) => LoadDocStep(w, s)
    case WriteRelay => WriteRelayStep(w)
    case TakeCleanup(r) => TakeCleanupStep(w, r)
    case CleanSlug(slug) => CleanSlugStep(w, slug)
    case FinishCleanup => FinishCleanupStep(w)
    case OpenLookup(t, s) => w.(cache := Open(w.cache, t, s, w.db.sources[s].url))
    case LoadLookup(t, channels) => w.(cache := Load(w.cache, t, channels))
    case StoreLookup(t) => w.(cache := Store(w.cache, t))
  }

  ghost predicate IsRun(w: World, es: seq<Event>)
    decreases |es|
  {
    es == [] || (Enabled(w, es[0]) && IsRun(Apply(w, es[0]), es[1..]))
  }

  ghost function Run(w: World, es: seq<Event>): World
    requires IsRun(w, es)
    decreases |es|
  {
    if es == [] then w else Run(Apply(w, es[0]), es[1..])
  }

  lemma RunCons(w: World, e: Event, es: seq<Event>)
    requires Enabled(w, e) && IsRun(Apply(w, e), es)
    ensures IsRun(w, [e] + es) && Run(w, [e] + es) == Run(Apply(w, e), es)
  {
    hide Apply, Enabled;
    assert ([e] + es)[1..] == es;
  }

  lemma {:induction false} RunSnoc(w: World, es: seq<Event>, e: Event)
    requires IsRun(w, es) && Enabled(Run(w, es), e)
    ensures IsRun(w, es + [e]) && Run(w, es + [e]) == Apply(Run(w, es), e)
    decreases |es|
  {
    hide Apply, Enabled;
    if es == [] {
      RunCons(w, e, []);
      assert [] + [e] == [e] + [];
    } else {
      RunSnoc(Apply(w, es[0]), es[1..], e);
      RunCons(w, es[0], es[1..] + [e]);
      assert es + [e] == [es[0]] + (es[1..] + [e]);
    }
  }

  lemma {:induction false} RunLast(w: World, es: seq<Event>)
    requires es != [] && IsRun(w, es)
    ensures var n := |es| - 1;
            IsRun(w, es[..n]) && Enabled(Run(w, es[..n]), es[n]) && Run(w, es) == Apply(Run(w, es[..n]), es[n])
    decreases |es|
  {
    hide Apply, Enabled;
    var n := |es| - 1;
    if n == 0 {
      assert es[..0] == [];
    } else {
      RunLast(Apply(w, es[0]), es[1..]);
      assert es[1..][..n - 1] == es[..n][1..];
    }
  }

  lemma {:induction false} RunConcat(w: World, a: seq<Event>, b: seq<Event>)
    requires IsRun(w, a) && IsRun(Run(w, a), b)
    ensures IsRun(w, a + b) && Run(w, a + b) == Run(Run(w, a), b)
    decreases |a|
  {
    hide Apply, Enabled;
    if a == [] {
      assert a + b == b;
    } else {
      RunConcat(Apply(w, a[0]), a[1..], b);
      RunCons(w, a[0], a[1..] + b);
      assert a + b == [a[0]] + (a[1..] + b);
    }
  }

  /** The steps es lead from w to w'. */
  ghost predicate Leads(w: World, es: seq<Event>, w': World) {
    IsRun(w, es) && Run(w, es) == w'
  }

  lemma LeadsNowhere(w: World)
    ensures Leads(w, [], w)
  {
  }

  lemma LeadsOn(w: World, es: seq<Event>, w1: World, e: Event)
    requires Leads(w, es, w1) && Enabled(w1, e)
    ensures Leads(w, es + [e], Apply(w1, e))
  {
    hide Apply, Enabled, Run, IsRun;
    RunSnoc(w, es, e);
  }

  lemma LeadsThrough(w: World, a: seq<Event>, w1: World, b: seq<Event>, w2: World)
    requires Leads(w, a, w1) && Leads(w1, b, w2)
    ensures Leads(w, a + b, w2)
  {
    hide Run, IsRun;
    RunConcat(w, a, b);
  }

  lemma ThenMutate(w0: World, es: seq<Event>, w: World, m: Mutation)
    requires Leads(w0, es, w) && Commits(w.db, m) && (NeedsAdmission(m) ==> w.q.held > 0)
    ensures Leads(w0, es + [Mutate(m)], ApplyWork(Committed(w, m), Derived(w.db, m)))
  {
    LeadsOn(w0, es, w, Mutate(m));
  }

  lemma ThenTakeDelete(w0: World, es: seq<Event>, w: World, s: int)
    requires Leads(w0, es, w) && w.busy.Idle? && s in w.q.deletes
    ensures Leads(w0, es + [TakeDelete(s)], TakeDeleteStep(w, s))
  {
    LeadsOn(w0, es, w, TakeDelete(s));
  }

  lemma ThenTakeSource(w0: World, es: seq<Event>, w: World, s: int)
    requires Leads(w0, es, w) && w.busy.Idle? && s in w.q.sources
    ensures Leads(w0, es + [TakeSource(s)], TakeSourceStep(w, s))
  {
    LeadsOn(w0, es, w, TakeSource(s));
  }

  lemma ThenCancelSource(w0: World, es: seq<Event>, w: World)
    requires Leads(w0, es, w) && w.busy.Fetching?
    ensures Leads(w0, es + [CancelSource], CancelSourceStep(w))
  {
    LeadsOn(w0, es, w, CancelSource);
  }

  lemma ThenFinishFetch(w0: World, es: seq<Event>, w: World, result: Option<Doc>, channels: seq<ChannelInfo>)
    requires Leads(w0, es, w) && w.busy.Fetching? && (result.Some? ==> IsIndexOf(channels, result.value))
    ensures Leads(w0, es + [FinishFetch(result, channels)], FinishFetchStep(w, result, channels))
  {
    LeadsOn(w0, es, w, FinishFetch(result, channels));
  }

  lemma ThenFinishSource(w0: World, es: seq<Event>, w: World)
    requires Leads(w0, es, w) && w.busy.Published?
    ensures Leads(w0, es + [FinishSource], FinishSourceStep(w))
  {
    LeadsOn(w0, es, w, FinishSource);
  }

  lemma ThenTakeRelay(w0: World, es: seq<Event>, w: World, r: int)
    requires Leads(w0, es, w) && w.busy.Idle? && r in w.q.relays
    ensures Leads(w0, es + [TakeRelay(r)], TakeRelayStep(w, r))
  {
    LeadsOn(w0, es, w, TakeRelay(r));
  }

  lemma ThenLoadDoc(w0: World, es: seq<Event>, w: World, s: int)
    requires Leads(w0, es, w) && w.busy.Building? && s in Sources(w.busy.ms) && s !in w.busy.docs
    ensures Leads(w0, es + [LoadDoc(s)], LoadDocStep(w, s))
  {
    LeadsOn(w0, es, w, LoadDoc(s));
  }

  lemma ThenWriteRelay(w0: World, es: seq<Event>, w: World)
    requires Leads(w0, es, w) && w.busy.Building? && w.busy.docs.Keys == Sources(w.busy.ms) && Stored(w.busy.ms)
    ensures Leads(w0, es + [WriteRelay], WriteRelayStep(w))
  {
    LeadsOn(w0, es, w, WriteRelay);
  }

  lemma ThenTakeCleanup(w0: World, es: seq<Event>, w: World, r: int)
    requires Leads(w0, es, w) && w.busy.Idle? && r in w.q.cleanups && Ready(w.q.cleanups[r], w.timers.now)
    ensures Leads(w0, es + [TakeCleanup(r)], TakeCleanupStep(w, r))
  {
    LeadsOn(w0, es, w, TakeCleanup(r));
  }

  lemma ThenCleanSlug(w0: World, es: seq<Event>, w: World, slug: string)
    requires Leads(w0, es, w) && w.busy.Cleaning? && slug in w.busy.todo
    ensures Leads(w0, es + [CleanSlug(slug)], CleanSlugStep(w, slug))
  {
    LeadsOn(w0, es, w, CleanSlug(slug));
  }

  lemma ThenFinishCleanup(w0: World, es: seq<Event>, w: World)
    requires Leads(w0, es, w) && w.busy.Cleaning? && w.busy.todo == {}
    ensures Leads(w0, es + [FinishCleanup], FinishCleanupStep(w))
  {
    LeadsOn(w0, es, w, FinishCleanup);
  }

  function Init(db: Db): World {
    World(db, EMPTY, map[], Queues(true, 0, {}, {}, {}, map[]), map[], Timers(0, map[], map[], map[]), Idle)
  }
}
