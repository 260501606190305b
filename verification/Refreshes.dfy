/** What becomes of the refresh that a URL change asks for. */
module Refreshes {
  import opened Seqs
  import opened RelayXml
  import opened Library
  import opened SourceCache
  import opened EpgModel
  import opened WorkerRuns

  // ---------------------------------------------------------------- what is owed

  /** The source is being fetched as it is now. */
  predicate BeingFetched(w: World, s: int) {
    w.busy.Fetching? && w.busy.source == s && w.busy.seen == RevOf(w.revs, s)
  }

  predicate PublishedNow(w: World, s: int) {
    w.busy.Published? && w.busy.source == s
  }

  predicate IsOverdue(w: World, s: int) {
    Overdue(w.db, w.timers, s)
  }

  /** A fetch of the source is still to come: it is queued, under way, or so long ago that the
      next due check outside its back-off queues it. */
  predicate Due(w: World, s: int) {
    s in w.q.sources || BeingFetched(w, s) || IsOverdue(w, s)
  }

  /** The refresh is not lost: the source is served from its present URL, or it will be fetched. */
  predicate Kept(w: World, s: int) {
    Due(w, s) || Eligible(w.db, w.cache, s)
  }

  /** That is what being overdue means: when its back-off has passed, the due check queues it. */
  lemma OverdueIsQueued(w: World, s: int, seconds: nat)
    requires IsOverdue(w, s) && CanEnqueue(w.q) && !BackingOff(w.timers.(now := w.timers.now + seconds), s)
    ensures var w1 := Apply(w, Tick(seconds)); s in Apply(w1, RequestRefresh(DueSources(w1.db, w1.timers))).q.sources
  {
    hide AddCleanups;
  }

  /** A document of the source is published while the deletion of its files is still queued. */
  predicate Early(w: World, e: Event, s: int) {
    e.FinishFetch? && e.result.Some? && w.busy.Fetching? && w.busy.source == s && StillCurrent(w) && s in w.q.deletes
  }

  /** The source is taken while it backs off, or its fetch is cancelled or fails. */
  predicate Ends(w: World, e: Event, s: int) {
    (e == TakeSource(s) && BackingOff(w.timers, s))
    || (BeingFetched(w, s) && (e.CancelSource? || (e.FinishFetch? && e.result.None?)))
  }

  /** The refresh slips: what it publishes will be deleted, or it ends with nothing published
      that lasts. */
  predicate Slips(w: World, e: Event, s: int) {
    Early(w, e, s) || (Ends(w, e, s) && (Eligible(w.db, w.cache, s) ==> s in w.q.deletes))
  }

  /** The source is queued, or due for a reason that a publication being finished does not remove. */
  predicate Stirs(w: World, s: int) {
    s in w.q.sources || (IsOverdue(w, s) && !PublishedNow(w, s))
  }

  ghost predicate NeverStirs(w: World, es: seq<Event>, s: int)
    requires IsRun(w, es)
    decreases |es|
  {
    !Stirs(w, s) && (es != [] ==> NeverStirs(Apply(w, es[0]), es[1..], s))
  }

  /** The refresh slips at some step, and afterwards the source is never queued nor due. */
  ghost predicate Slipped(w: World, es: seq<Event>, s: int)
    requires IsRun(w, es)
    decreases |es|
  {
    es != [] && ((Slips(w, es[0], s) && NeverStirs(Apply(w, es[0]), es[1..], s)) || Slipped(Apply(w, es[0]), es[1..], s))
  }

  /** The worker takes the source before the deletion of its files; or, while it is not
      overdue, takes it during its back-off, or its fetch is cancelled or fails. */
  predicate Risks(w: World, e: Event, s: int) {
    (e == TakeSource(s) && s in w.q.deletes) || (Ends(w, e, s) && !IsOverdue(w, s))
  }

  ghost predicate Risky(w: World, es: seq<Event>, s: int)
    requires IsRun(w, es)
    decreases |es|
  {
    es != [] && (Risks(w, es[0], s) || Risky(Apply(w, es[0]), es[1..], s))
  }

  /** The source has this row and revision in every state of the run. */
  ghost predicate Undisturbed(w: World, es: seq<Event>, s: int, row: Source, rev: nat)
    requires IsRun(w, es)
    decreases |es|
  {
    s in w.db.sources && w.db.sources[s] == row && RevOf(w.revs, s) == rev
    && (es != [] ==> Undisturbed(Apply(w, es[0]), es[1..], s, row, rev))
  }

  // ---------------------------------------------------------------- the source during the run

  predicate SourceInv(w: World) {
    IndexInv(w) && SeenOk(w)
  }

  lemma StepKeepsSources(w: World, e: Event)
    requires SourceInv(w) && Enabled(w, e)
    ensures SourceInv(Apply(w, e))
  {
    hide IndexInv, SeenOk, Apply, Enabled;
    IndexStep(w, e);
    SeenStep(w, e);
  }

  lemma {:induction false} RunKeepsSources(w: World, es: seq<Event>)
    requires SourceInv(w) && IsRun(w, es)
    ensures SourceInv(Run(w, es))
    decreases |es|
  {
    hide SourceInv, Apply, Enabled;
    if es != [] {
      StepKeepsSources(w, es[0]);
      RunKeepsSources(Apply(w, es[0]), es[1..]);
    }
  }

  lemma SourcesInEveryRun(db: Db, es: seq<Event>)
    requires IsRun(Init(db), es)
    ensures SourceInv(Run(Init(db), es))
  {
    hide Run, IsRun;
    RunKeepsSources(Init(db), es);
  }

  /** The source is there with this row, and a fetch under its revision is from its URL. */
  predicate Present(w: World, s: int, row: Source) {
    s in w.db.sources && w.db.sources[s] == row && SourceOk(row) && (BeingFetched(w, s) ==> Url(w.busy.url) == Url(row.url))
  }

  predicate Concerns(b: Busy, s: int) {
    (b.Fetching? && b.source == s) || (b.Published? && b.source == s)
  }

  /** The step leaves the source's row and revision alone. */
  predicate SameSource(w: World, w': World, s: int) {
    s in w.db.sources && s in w'.db.sources && w'.db.sources[s] == w.db.sources[s] && RevOf(w'.revs, s) == RevOf(w.revs, s)
  }

  /** Nothing that matters to the source moves, except that it may be queued or become due. */
  predicate Unmoved(w: World, w': World, s: int) {
    && SameSource(w, w', s)
    && (Concerns(w.busy, s) || Concerns(w'.busy, s) ==> w'.busy == w.busy)
    && (s in w.q.sources ==> s in w'.q.sources)
    && (s in w'.q.deletes <==> s in w.q.deletes)
    && (IsOverdue(w, s) ==> IsOverdue(w', s))
    && (Eligible(w'.db, w'.cache, s) <==> Eligible(w.db, w.cache, s))
  }

  /** The steps that move the source along. */
  predicate Moves(w: World, e: Event, s: int) {
    e == TakeSource(s) || e == TakeDelete(s)
    || ((e.CancelSource? || e.FinishFetch? || e.FinishSource?) && Concerns(w.busy, s))
  }

  lemma NotBumped(w: World, m: Mutation, s: int)
    requires Enabled(w, Mutate(m)) && RevOf(Apply(w, Mutate(m)).revs, s) == RevOf(w.revs, s)
    ensures s !in Derived(w.db, m).invalidate + Derived(w.db, m).deletes
  {
    hide Derived, Commit, Commits, AddCleanups, LastAfter;
  }

  lemma LastStays(db: Db, m: Mutation, last: map<int, nat>, s: int)
    requires Commits(db, m) && s in db.sources && s !in Derived(db, m).invalidate + Derived(db, m).deletes
    ensures s in LastAfter(last, m) <==> s in last
    ensures s in last ==> LastAfter(last, m)[s] == last[s]
  {
    hide Owners, Url, SourceOk, PairsOk, MembersOk, SlugFree;
  }

  lemma WorkUnmoved(w: World, db: Db, last: map<int, nat>, work: Work, s: int)
    requires s in w.db.sources && s in db.sources && db.sources[s] == w.db.sources[s]
    requires s in last <==> s in w.timers.last
    requires s in last ==> last[s] == w.timers.last[s]
    requires s !in work.invalidate + work.deletes
    ensures Unmoved(w, ApplyWork(w.(db := db, timers := w.timers.(last := last)), work), s)
  {
    hide AddCleanups, Url, Positive;
  }

  lemma MutateUnmoved(w: World, m: Mutation, s: int)
    requires Enabled(w, Mutate(m)) && SameSource(w, Apply(w, Mutate(m)), s)
    ensures Unmoved(w, Apply(w, Mutate(m)), s)
  {
    NotBumped(w, m, s);
    LastStays(w.db, m, w.timers.last, s);
    hide Derived, Commit, Commits, ApplyWork, LastAfter, Url, Unmoved;
    WorkUnmoved(w, Commit(w.db, m), LastAfter(w.timers.last, m), Derived(w.db, m), s);
  }

  lemma WipeUnmoved(w: World, t: int, s: int)
    requires ManifestsOk(w.cache) && s in w.db.sources && t != s
    ensures Eligible(w.db, Wipe(w.cache, t), s) <==> Eligible(w.db, w.cache, s)
  {
    hide Url;
  }

  lemma PublishUnmoved(w: World, s: int, t: int, url: string, from: string, doc: Doc, channels: seq<ChannelInfo>)
    requires ManifestsOk(w.cache) && s in w.db.sources && t != s
    ensures Eligible(w.db, Publish(w.cache, t, url, from, doc, channels), s) <==> Eligible(w.db, w.cache, s)
  {
    hide Url;
  }

  lemma TakeUnmoved(w: World, e: Event, s: int)
    requires ManifestsOk(w.cache) && Enabled(w, e) && s in w.db.sources && !Moves(w, e, s) && (e.TakeDelete? || e.TakeSource?)
    ensures Unmoved(w, Apply(w, e), s)
  {
    WipeUnmoved(w, e.source, s);
    hide Eligible, Wipe, Url;
  }

  lemma FetchUnmoved(w: World, e: Event, s: int)
    requires ManifestsOk(w.cache) && Enabled(w, e) && s in w.db.sources && !Moves(w, e, s) && (e.CancelSource? || e.FinishFetch?)
    ensures Unmoved(w, Apply(w, e), s)
  {
    if e.FinishFetch? && e.result.Some? && StillCurrent(w) {
      var t := w.busy.source;
      PublishUnmoved(w, s, t, w.db.sources[t].url, w.busy.url, e.result.value, e.channels);
    }
    hide Eligible, Publish, Url, StillCurrent, IsIndexOf;
  }

  lemma FinishUnmoved(w: World, s: int)
    requires s in w.db.sources && w.busy.Published? && w.busy.source != s
    ensures Unmoved(w, FinishSourceStep(w), s)
  {
    hide Url, Referencing, AddCleanups;
  }

  lemma WorkerUnmoved(w: World, e: Event, s: int)
    requires ManifestsOk(w.cache) && Enabled(w, e) && s in w.db.sources && !Moves(w, e, s)
    requires e.TakeDelete? || e.TakeSource? || e.CancelSource? || e.FinishFetch? || e.FinishSource?
    ensures Unmoved(w, Apply(w, e), s)
  {
    hide ManifestsOk, Unmoved, Eligible;
    if e.TakeDelete? || e.TakeSource? {
      TakeUnmoved(w, e, s);
    } else if e.FinishSource? {
      FinishUnmoved(w, s);
    } else {
      FetchUnmoved(w, e, s);
    }
  }

  lemma LookupUnmoved(w: World, e: Event, s: int)
    requires Enabled(w, e) && s in w.db.sources && (e.OpenLookup? || e.LoadLookup? || e.StoreLookup?)
    ensures Unmoved(w, Apply(w, e), s)
  {
    hide Url, TagFits, IsIndexOf;
  }

  lemma OtherUnmoved(w: World, e: Event, s: int)
    requires Enabled(w, e) && s in w.db.sources && !e.Mutate? && !(e.OpenLookup? || e.LoadLookup? || e.StoreLookup?)
    requires !(e.TakeDelete? || e.TakeSource? || e.CancelSource? || e.FinishFetch? || e.FinishSource?)
    ensures Unmoved(w, Apply(w, e), s)
  {
    hide Eligible, Url, AddCleanups, Owned, Mappings, Build;
  }

  lemma StepUnmoved(w: World, e: Event, s: int)
    requires ManifestsOk(w.cache) && Enabled(w, e) && s in w.db.sources && !Moves(w, e, s)
    requires SameSource(w, Apply(w, e), s)
    ensures Unmoved(w, Apply(w, e), s)
  {
    hide ManifestsOk, Apply, Enabled, Unmoved, Moves;
    if e.Mutate? {
      MutateUnmoved(w, e.m, s);
    } else if e.TakeDelete? || e.TakeSource? || e.CancelSource? || e.FinishFetch? || e.FinishSource? {
      WorkerUnmoved(w, e, s);
    } else if e.OpenLookup? || e.LoadLookup? || e.StoreLookup? {
      LookupUnmoved(w, e, s);
    } else {
      OtherUnmoved(w, e, s);
    }
  }

  // ---------------------------------------------------------------- before it slips

  /** The refresh is kept, and nothing about it hangs on files that wait for deletion. */
  predicate Before(w: World, s: int, row: Source) {
    && Present(w, s, row) && Kept(w, s)
    && (s in w.q.deletes ==> Due(w, s))
    && (PublishedNow(w, s) ==> s in w.q.sources || (Eligible(w.db, w.cache, s) && s !in w.q.deletes))
  }

  /** It hangs on files that wait for deletion, or is gone. */
  predicate After(w: World, s: int, row: Source) {
    && Present(w, s, row)
    && !Stirs(w, s) && !(w.busy.Fetching? && w.busy.source == s)
    && (PublishedNow(w, s) ==> s in w.q.deletes)
    && (Eligible(w.db, w.cache, s) ==> s in w.q.deletes)
  }

  /** Whichever of the two a stirring decides. */
  predicate Either(w: World, s: int, row: Source) {
    if Stirs(w, s) then Before(w, s, row) else After(w, s, row)
  }

  lemma BeforeUnmoved(w: World, w': World, s: int, row: Source)
    requires Before(w, s, row) && Unmoved(w, w', s)
    ensures Before(w', s, row)
  {
    hide Eligible, Url, Overdue;
  }

  lemma BeforeTakes(w: World, e: Event, s: int, row: Source)
    requires Before(w, s, row) && Enabled(w, e) && (e == TakeSource(s) || e == TakeDelete(s)) && !Slips(w, e, s)
    ensures Before(Apply(w, e), s, row)
  {
    hide Eligible, Url, Wipe, Overdue;
  }

  lemma BeforeFetched(w: World, e: Event, s: int, row: Source)
    requires Before(w, s, row) && Enabled(w, e) && (e.CancelSource? || e.FinishFetch?) && Concerns(w.busy, s)
    requires !Slips(w, e, s)
    ensures Before(Apply(w, e), s, row)
  {
    if e.FinishFetch? && e.result.Some? && StillCurrent(w) {
      PublishedIsEligible(w, e.result.value, e.channels, row);
    }
    hide Eligible, Url, IsIndexOf, Publish;
  }

  lemma PublishedIsEligible(w: World, doc: Doc, channels: seq<ChannelInfo>, row: Source)
    requires w.busy.Fetching? && StillCurrent(w) && Present(w, w.busy.source, row)
    ensures Eligible(w.db, FinishFetchStep(w, Some(doc), channels).cache, w.busy.source)
  {
    UrlTwice(w.db.sources[w.busy.source].url);
    hide Url;
  }

  lemma BeforePublished(w: World, s: int, row: Source)
    requires Before(w, s, row) && PublishedNow(w, s)
    ensures Before(FinishSourceStep(w), s, row)
  {
    hide Url, Referencing, AddCleanups, Overdue;
  }

  lemma BeforeStep(w: World, e: Event, s: int, row: Source)
    requires ManifestsOk(w.cache) && Before(w, s, row) && Enabled(w, e) && SameSource(w, Apply(w, e), s)
    requires !Slips(w, e, s)
    ensures Before(Apply(w, e), s, row)
  {
    hide ManifestsOk, Kept, Due, Slips, Unmoved, BeingFetched, Eligible, Url;
    if !Moves(w, e, s) {
      hide Apply, Enabled, Moves;
      StepUnmoved(w, e, s);
      BeforeUnmoved(w, Apply(w, e), s, row);
    } else if e == TakeSource(s) || e == TakeDelete(s) {
      BeforeTakes(w, e, s, row);
    } else if e.FinishSource? {
      BeforePublished(w, s, row);
    } else {
      BeforeFetched(w, e, s, row);
    }
  }

  lemma EarlyStep(w: World, e: Event, s: int, row: Source)
    requires Before(w, s, row) && Enabled(w, e) && Early(w, e, s)
    ensures Either(Apply(w, e), s, row)
  {
    PublishedIsEligible(w, e.result.value, e.channels, row);
    hide Eligible, Url, IsIndexOf, Publish, Overdue;
  }

  lemma EndStep(w: World, e: Event, s: int, row: Source)
    requires Before(w, s, row) && Enabled(w, e) && Ends(w, e, s) && (Eligible(w.db, w.cache, s) ==> s in w.q.deletes)
    ensures Either(Apply(w, e), s, row)
  {
    hide Eligible, Url, IsIndexOf;
  }

  lemma SlipStep(w: World, e: Event, s: int, row: Source)
    requires Before(w, s, row) && Enabled(w, e) && Slips(w, e, s)
    ensures Either(Apply(w, e), s, row)
  {
    hide Before, Either, Early, Ends, Eligible, Apply, Enabled;
    if Early(w, e, s) {
      EarlyStep(w, e, s, row);
    } else {
      EndStep(w, e, s, row);
    }
  }

  // ---------------------------------------------------------------- after it slipped

  lemma AfterUnmoved(w: World, w': World, s: int, row: Source)
    requires After(w, s, row) && Unmoved(w, w', s)
    ensures Either(w', s, row)
  {
    hide Eligible, Url, Overdue;
  }

  lemma WipedIsNotEligible(w: World, s: int)
    ensures !Eligible(w.db, Wipe(w.cache, s), s)
  {
  }

  lemma AfterMoves(w: World, e: Event, s: int, row: Source)
    requires After(w, s, row) && Enabled(w, e) && Moves(w, e, s)
    ensures Either(Apply(w, e), s, row)
  {
    WipedIsNotEligible(w, s);
    if e.FinishSource? {
      hide Url, Referencing, AddCleanups, Overdue;
    } else {
      hide Eligible, Url, Wipe, IsIndexOf, Overdue;
    }
  }

  /** Only queueing the source, or its coming due, brings the refresh back. */
  lemma AfterStep(w: World, e: Event, s: int, row: Source)
    requires ManifestsOk(w.cache) && After(w, s, row) && Enabled(w, e) && SameSource(w, Apply(w, e), s)
    ensures Either(Apply(w, e), s, row)
    ensures !Slips(w, e, s)
  {
    assert !Slips(w, e, s) by {
      hide Eligible, Url, StillCurrent, BackingOff, Overdue;
    }
    hide ManifestsOk, Unmoved, Moves, Apply, Enabled, Eligible, Url, Slips, Either;
    if Moves(w, e, s) {
      AfterMoves(w, e, s, row);
    } else {
      StepUnmoved(w, e, s);
      AfterUnmoved(w, Apply(w, e), s, row);
    }
  }

  // ---------------------------------------------------------------- runs

  lemma SourceManifests(w: World)
    requires SourceInv(w)
    ensures ManifestsOk(w.cache)
  {
    hide ManifestsOk, TagOk;
  }

  lemma StepSame(w: World, es: seq<Event>, s: int, row: Source, rev: nat)
    requires es != [] && IsRun(w, es) && Undisturbed(w, es, s, row, rev)
    ensures SameSource(w, Apply(w, es[0]), s)
  {
    hide Apply, Enabled, RevOf;
    assert Undisturbed(Apply(w, es[0]), es[1..], s, row, rev);
  }

  /** One step of a run and of what is said about it. */
  lemma Unfold(w: World, es: seq<Event>, s: int, row: Source, rev: nat)
    requires es != [] && IsRun(w, es) && Undisturbed(w, es, s, row, rev)
    ensures Enabled(w, es[0]) && IsRun(Apply(w, es[0]), es[1..]) && Undisturbed(Apply(w, es[0]), es[1..], s, row, rev)
    ensures Run(w, es) == Run(Apply(w, es[0]), es[1..]) && SameSource(w, Apply(w, es[0]), s)
    ensures Slipped(w, es, s) <==>
              (Slips(w, es[0], s) && NeverStirs(Apply(w, es[0]), es[1..], s)) || Slipped(Apply(w, es[0]), es[1..], s)
    ensures NeverStirs(w, es, s) <==> !Stirs(w, s) && NeverStirs(Apply(w, es[0]), es[1..], s)
  {
    StepSame(w, es, s, row, rev);
    hide Apply, Enabled, RevOf, Slips, Stirs;
  }

  lemma StirsNow(w: World, es: seq<Event>, s: int)
    requires IsRun(w, es) && Stirs(w, s)
    ensures !NeverStirs(w, es, s)
  {
    hide Apply, Enabled, Stirs;
  }

  lemma NothingLeft(w: World, s: int)
    ensures !Slipped(w, [], s) && (NeverStirs(w, [], s) <==> !Stirs(w, s)) && Run(w, []) == w
  {
    hide Stirs;
  }

  lemma EitherIs(w: World, s: int, row: Source)
    requires Either(w, s, row)
    ensures Stirs(w, s) ==> Before(w, s, row)
    ensures !Stirs(w, s) ==> After(w, s, row)
  {
    hide Before, After, Stirs;
  }

  lemma {:induction false} BeforeRun(w: World, es: seq<Event>, s: int, row: Source, rev: nat)
    requires SourceInv(w) && Before(w, s, row) && IsRun(w, es) && Undisturbed(w, es, s, row, rev)
    ensures if Slipped(w, es, s) then After(Run(w, es), s, row) else Before(Run(w, es), s, row)
    decreases |es|
  {
    hide *;
    if es == [] {
      NothingLeft(w, s);
    } else {
      Unfold(w, es, s, row, rev);
      var w' := Apply(w, es[0]);
      SourceManifests(w);
      StepKeepsSources(w, es[0]);
      if !Slips(w, es[0], s) {
        BeforeStep(w, es[0], s, row);
        BeforeRun(w', es[1..], s, row, rev);
      } else {
        SlipStep(w, es[0], s, row);
        EitherIs(w', s, row);
        if Stirs(w', s) {
          StirsNow(w', es[1..], s);
          BeforeRun(w', es[1..], s, row, rev);
        } else {
          AfterRun(w', es[1..], s, row, rev);
        }
      }
    }
  }

  lemma {:induction false} AfterRun(w: World, es: seq<Event>, s: int, row: Source, rev: nat)
    requires SourceInv(w) && After(w, s, row) && IsRun(w, es) && Undisturbed(w, es, s, row, rev)
    ensures if NeverStirs(w, es, s) || Slipped(w, es, s) then After(Run(w, es), s, row) else Before(Run(w, es), s, row)
    decreases |es|
  {
    AfterIsStill(w, s, row);
    hide *;
    if es == [] {
      NothingLeft(w, s);
    } else {
      Unfold(w, es, s, row, rev);
      var w' := Apply(w, es[0]);
      SourceManifests(w);
      StepKeepsSources(w, es[0]);
      AfterStep(w, es[0], s, row);
      EitherIs(w', s, row);
      if Stirs(w', s) {
        StirsNow(w', es[1..], s);
        BeforeRun(w', es[1..], s, row, rev);
      } else {
        AfterRun(w', es[1..], s, row, rev);
      }
    }
  }

  lemma AfterIsStill(w: World, s: int, row: Source)
    requires After(w, s, row)
    ensures !Stirs(w, s)
    ensures s !in w.q.deletes ==> !Kept(w, s)
  {
    hide Eligible, Url, Overdue;
  }

  lemma BeforeIsKept(w: World, s: int, row: Source)
    requires Before(w, s, row)
    ensures Kept(w, s)
  {
  }

  /** The URL of an enabled source changes. */
  predicate ChangesUrl(w: World, m: Mutation) {
    Enabled(w, Mutate(m)) && m.UpdateSource? && m.source.enabled && Url(w.db.sources[m.id].url) != Url(m.source.url)
  }

  /** The source's row afterwards. */
  function NewRow(m: Mutation): Source
    requires m.UpdateSource?
  {
    m.source.(url := Url(m.source.url))
  }

  lemma ChangeQueues(w: World, m: Mutation)
    requires SourceInv(w) && ChangesUrl(w, m)
    ensures var w' := Apply(w, Mutate(m));
            SourceInv(w') && m.id in w'.q.deletes && m.id in w'.q.sources && !BeingFetched(w', m.id)
            && Before(w', m.id, NewRow(m)) && m.id in w'.db.sources
  {
    StepKeepsSources(w, Mutate(m));
    UrlTwice(m.source.url);
    hide Url, AddCleanups, IndexInv, Eligible, Overdue;
  }

  /** The source keeps its new row and revision throughout the run. */
  ghost predicate LeftAlone(w: World, m: Mutation, es: seq<Event>)
    requires ChangesUrl(w, m) && IsRun(Apply(w, Mutate(m)), es)
  {
    var w1 := Apply(w, Mutate(m));
    Undisturbed(w1, es, m.id, NewRow(m), RevOf(w1.revs, m.id))
  }

  /** After the URL of an enabled source changed, and until the source is changed again, its
      refresh is kept unless it slipped: a document was published while the deletion of the
      old files was still queued, or the source was taken while backing off, or its fetch was
      cancelled or failed, and afterwards nothing queued it and it did not come due. Once that
      deletion is done, this is exactly when the refresh is lost. */
  lemma RefreshIsLostExactly(w: World, m: Mutation, es: seq<Event>)
    requires SourceInv(w) && ChangesUrl(w, m) && IsRun(Apply(w, Mutate(m)), es) && LeftAlone(w, m, es)
    ensures var w1 := Apply(w, Mutate(m)); var w' := Run(w1, es);
            (!Slipped(w1, es, m.id) ==> Kept(w', m.id))
            && (m.id !in w'.q.deletes ==> (Kept(w', m.id) <==> !Slipped(w1, es, m.id)))
  {
    ChangeQueues(w, m);
    hide SourceInv, ChangesUrl, Before, After, Apply, Enabled, Run, IsRun, Undisturbed, Slipped, Kept;
    var w1 := Apply(w, Mutate(m));
    BeforeRun(w1, es, m.id, NewRow(m), RevOf(w1.revs, m.id));
    if Slipped(w1, es, m.id) {
      AfterIsStill(Run(w1, es), m.id, NewRow(m));
    } else {
      BeforeIsKept(Run(w1, es), m.id, NewRow(m));
    }
  }

  // ---------------------------------------------------------------- the guard

  /** A fetch in flight has its deletion behind it. */
  predicate InOrder(w: World, s: int) {
    s in w.db.sources && (BeingFetched(w, s) ==> s !in w.q.deletes)
  }

  /** Without a risk the refresh does not slip, unless the source is overdue and stays so. */
  lemma InOrderMoves(w: World, e: Event, s: int)
    requires InOrder(w, s) && Enabled(w, e) && Moves(w, e, s) && !Risks(w, e, s)
    ensures InOrder(Apply(w, e), s)
    ensures Slips(w, e, s) ==> Stirs(Apply(w, e), s)
  {
    assert Slips(w, e, s) ==> Stirs(Apply(w, e), s) by {
      hide Eligible, Url, Publish, IsIndexOf;
    }
    hide Url, Referencing, AddCleanups, IsIndexOf, Wipe, Publish, Eligible, Slips, Stirs, StillCurrent, BackingOff;
  }

  lemma InOrderUnmoved(w: World, e: Event, s: int)
    requires ManifestsOk(w.cache) && InOrder(w, s) && Enabled(w, e) && SameSource(w, Apply(w, e), s)
    requires !Moves(w, e, s)
    ensures !Slips(w, e, s) && InOrder(Apply(w, e), s)
  {
    hide ManifestsOk, Enabled, Apply, Eligible, Url, StillCurrent, Overdue;
    StepUnmoved(w, e, s);
  }

  lemma InOrderStep(w: World, e: Event, s: int)
    requires ManifestsOk(w.cache) && InOrder(w, s) && Enabled(w, e) && SameSource(w, Apply(w, e), s) && !Risks(w, e, s)
    ensures InOrder(Apply(w, e), s) && (Slips(w, e, s) ==> Stirs(Apply(w, e), s))
  {
    hide *;
    if Moves(w, e, s) {
      InOrderMoves(w, e, s);
    } else {
      InOrderUnmoved(w, e, s);
    }
  }

  lemma {:induction false} InOrderRun(w: World, es: seq<Event>, s: int, row: Source, rev: nat)
    requires SourceInv(w) && InOrder(w, s) && IsRun(w, es) && Undisturbed(w, es, s, row, rev) && !Risky(w, es, s)
    ensures !Slipped(w, es, s)
    decreases |es|
  {
    hide *;
    if es == [] {
      NothingLeft(w, s);
    } else {
      Unfold(w, es, s, row, rev);
      var w' := Apply(w, es[0]);
      NoRiskNow(w, es, s);
      SourceManifests(w);
      InOrderStep(w, es[0], s);
      StepKeepsSources(w, es[0]);
      if Stirs(w', s) {
        StirsNow(w', es[1..], s);
      }
      InOrderRun(w', es[1..], s, row, rev);
    }
  }

  lemma NoRiskNow(w: World, es: seq<Event>, s: int)
    requires es != [] && IsRun(w, es) && !Risky(w, es, s)
    ensures !Risks(w, es[0], s) && !Risky(Apply(w, es[0]), es[1..], s)
  {
    hide Apply, Enabled, Risks;
  }

  /** So the refresh is kept when the worker takes the deletion before the source and, as long
      as the source is not overdue, does not take it during its back-off, and its fetch is
      neither cancelled nor fails. */
  lemma RefreshIsKeptWithoutRisk(w: World, m: Mutation, es: seq<Event>)
    requires SourceInv(w) && ChangesUrl(w, m) && IsRun(Apply(w, Mutate(m)), es) && LeftAlone(w, m, es)
    requires !Risky(Apply(w, Mutate(m)), es, m.id)
    ensures Kept(Run(Apply(w, Mutate(m)), es), m.id)
  {
    ChangeQueues(w, m);
    hide SourceInv, ChangesUrl, Before, BeingFetched, Apply, Enabled, Run, IsRun, Undisturbed, Slipped, Risky, Kept;
    var w1 := Apply(w, Mutate(m));
    InOrderRun(w1, es, m.id, NewRow(m), RevOf(w1.revs, m.id));
    RefreshIsLostExactly(w, m, es);
  }

  // ---------------------------------------------------------------- a refresh that is lost

  /** The worker's four steps when it takes a source before the deletion of its old files. */
  function LateDelete(s: int, doc: Doc, channels: seq<ChannelInfo>): seq<Event> {
    [TakeSource(s), FinishFetch(Some(doc), channels), FinishSource, TakeDelete(s)]
  }

  /** Then the generation just fetched from the new URL is deleted with the old ones, and
      nothing will fetch it again. */
  lemma LateDeleteLosesTheRefresh(w: World, s: int, doc: Doc, channels: seq<ChannelInfo>)
    requires w.busy.Idle? && s in w.q.deletes && s in w.q.sources && s in w.db.sources
    requires !BackingOff(w.timers, s) && IsIndexOf(channels, doc)
    ensures exists w' :: Leads(w, LateDelete(s, doc, channels), w') && w'.db == w.db && s !in w'.q.deletes && !Kept(w', s)
  {
    hide Referencing, IsIndexOf, Url, Leads;
    var w1 := TakeSourceStep(w, s);
    var w2 := FinishFetchStep(w1, Some(doc), channels);
    var w3 := FinishSourceStep(w2);
    LeadsNowhere(w);
    ThenTakeSource(w, [], w, s);
    ThenFinishFetch(w, [] + [TakeSource(s)], w1, Some(doc), channels);
    ThenFinishSource(w, [] + [TakeSource(s)] + [FinishFetch(Some(doc), channels)], w2);
    ThenTakeDelete(w, [] + [TakeSource(s)] + [FinishFetch(Some(doc), channels)] + [FinishSource], w3, s);
    assert LateDelete(s, doc, channels)
        == [] + [TakeSource(s)] + [FinishFetch(Some(doc), channels)] + [FinishSource] + [TakeDelete(s)];
  }

  /** A source taken during its back-off is dropped, even after the deletion, and unless it is
      overdue nothing will fetch it. */
  lemma BackOffLosesTheRefresh(w: World, s: int)
    requires w.busy.Idle? && s in w.q.deletes && s in w.q.sources && s in w.db.sources
    requires BackingOff(w.timers, s) && !IsOverdue(w, s)
    ensures exists w' :: Leads(w, [TakeDelete(s), TakeSource(s)], w') && w'.db == w.db && s !in w'.q.deletes && !Kept(w', s)
  {
    WipedIsNotEligible(w, s);
    hide Leads, Wipe, Eligible;
    var w1 := TakeDeleteStep(w, s);
    LeadsNowhere(w);
    ThenTakeDelete(w, [], w, s);
    ThenTakeSource(w, [] + [TakeDelete(s)], w1, s);
    assert [TakeDelete(s), TakeSource(s)] == [] + [TakeDelete(s)] + [TakeSource(s)];
  }

  const HALF_A_DAY := 43200
  const AN_HOUR := 3600
  const NOTHING := Doc(map[], [])

  /** One enabled source. */
  function OneSource(url: string): Db {
    Db(map[], map[1 := Source(url, true, HALF_A_DAY)], map[], map[], 1)
  }

  const CORRECTION := UpdateSource(1, Source("b", true, HALF_A_DAY), {})

  /** A world of that source while one admission is held, whatever is on disk. */
  predicate At(w: World, url: string, deletes: set<int>, sources: set<int>, revs: map<int, nat>, timers: Timers, busy: Busy) {
    w.db == OneSource(url) && w.q == Queues(true, 1, deletes, sources, {}, map[]) && w.revs == revs && w.timers == timers
    && w.busy == busy
  }

  const NO_TIMERS := Timers(0, map[], map[], map[])

  lemma UrlsDiffer()
    ensures Url("a") == "a" && Url("b") == "b" && "a" != "b"
  {
    assert "a"[0] != "b"[0];
  }

  /** The source is queued, then taken to be fetched. */
  lemma ThenFetches(w0: World, es: seq<Event>, w: World, timers: Timers) returns (w': World)
    requires Leads(w0, es, w) && At(w, "a", {}, {}, map[], timers, Idle) && !BackingOff(timers, 1)
    ensures Leads(w0, es + [RequestRefresh({1})] + [TakeSource(1)], w')
    ensures At(w', "a", {}, {}, map[], timers, Fetching(1, 0, "a", timers.now))
  {
    hide Leads;
    assert AddCleanups(map[], {}) == map[] && {} + Positive({}) == {} && {} + {1} == {1} && {1} - {1} == {};
    LeadsOn(w0, es, w, RequestRefresh({1}));
    var w1 := Apply(w, RequestRefresh({1}));
    ThenTakeSource(w0, es + [RequestRefresh({1})], w1, 1);
    w' := TakeSourceStep(w1, 1);
  }

  lemma ThenCorrects(w0: World, es: seq<Event>, w: World, timers: Timers, busy: Busy) returns (w': World)
    requires Leads(w0, es, w) && At(w, "a", {}, {}, map[], timers, busy)
    ensures Leads(w0, es + [Mutate(CORRECTION)], w') && At(w', "b", {1}, {1}, map[1 := 2], timers, busy)
  {
    UrlsDiffer();
    hide Leads, Url;
    assert Bumped(map[], {1}, {1}) == map[1 := 2] && AddCleanups(map[], {}) == map[] && {} + Positive({}) == {} && {} + {1} == {1};
    assert Derived(w.db, CORRECTION) == Work({1}, {1}, {1}, {}, {});
    ThenMutate(w0, es, w, CORRECTION);
    w' := ApplyWork(Committed(w, CORRECTION), Derived(w.db, CORRECTION));
  }

  /** From a fresh start: the source is being fetched when its URL changes, and what was fetched
      from the old one is dropped. */
  const CHANGE: seq<Event> :=
    [Acquire, RequestRefresh({1}), TakeSource(1), Mutate(CORRECTION), FinishFetch(Some(NOTHING), [])]

  lemma FirstFetch() returns (w: World)
    ensures Leads(Init(OneSource("a")), CHANGE[..3], w) && At(w, "a", {}, {}, map[], NO_TIMERS, Fetching(1, 0, "a", 0))
  {
    hide Leads;
    var w0 := Init(OneSource("a"));
    LeadsNowhere(w0);
    LeadsOn(w0, [], w0, Acquire);
    w := ThenFetches(w0, [] + [Acquire], Apply(w0, Acquire), NO_TIMERS);
    assert CHANGE[..3] == [] + [Acquire] + [RequestRefresh({1})] + [TakeSource(1)];
  }

  lemma UrlChanges() returns (w: World)
    ensures Leads(Init(OneSource("a")), CHANGE, w) && At(w, "b", {1}, {1}, map[1 := 2], NO_TIMERS, Idle)
  {
    hide Leads, Url;
    var w3 := FirstFetch();
    var w4 := ThenCorrects(Init(OneSource("a")), CHANGE[..3], w3, NO_TIMERS, w3.busy);
    ThenFinishFetch(Init(OneSource("a")), CHANGE[..3] + [Mutate(CORRECTION)], w4, Some(NOTHING), []);
    w := FinishFetchStep(w4, Some(NOTHING), []);
    assert CHANGE == CHANGE[..3] + [Mutate(CORRECTION)] + [FinishFetch(Some(NOTHING), [])];
  }

  /** The enabled source is there, its deletion done, and its refresh lost. */
  predicate Lost(w: World) {
    1 in w.db.sources && w.db.sources[1] == NewRow(CORRECTION) && 1 !in w.q.deletes && !Kept(w, 1)
  }

  /** This happens: the worker, still going through its sources, fetches the new URL before it
      deletes the old files, and loses what it fetched. */
  lemma UrlChangeCanLoseItsRefresh()
    ensures DbInv(OneSource("a"))
    ensures exists w :: Leads(Init(OneSource("a")), CHANGE + LateDelete(1, NOTHING, []), w) && Lost(w)
  {
    UrlsDiffer();
    hide Leads, Url;
    var w := UrlChanges();
    LateDeleteLosesTheRefresh(w, 1, NOTHING, []);
    var w' :| Leads(w, LateDelete(1, NOTHING, []), w') && w'.db == w.db && 1 !in w'.q.deletes && !Kept(w', 1);
    LeadsThrough(Init(OneSource("a")), CHANGE, w, LateDelete(1, NOTHING, []), w');
    assert Lost(w');
  }

  /** From a fresh start: the source is fetched; a refresh an hour later fails; the URL is
      corrected within the back-off. */
  const MISTAKE: seq<Event> :=
    CHANGE[..3] + [FinishFetch(Some(NOTHING), []), FinishSource, Tick(AN_HOUR), RequestRefresh({1}), TakeSource(1),
                   FinishFetch(None, []), Mutate(CORRECTION)]

  const FETCHED := Timers(0, map[], map[], map[1 := 0])
  const FAILED := Timers(AN_HOUR, map[1 := AN_HOUR + 1], map[1 := 1], map[1 := 0])

  lemma FirstPublished() returns (w: World)
    ensures Leads(Init(OneSource("a")), CHANGE[..3] + [FinishFetch(Some(NOTHING), [])] + [FinishSource], w)
    ensures At(w, "a", {}, {}, map[], FETCHED, Idle)
  {
    hide Leads, Url, Publish;
    var w0 := Init(OneSource("a"));
    var w3 := FirstFetch();
    ThenFinishFetch(w0, CHANGE[..3], w3, Some(NOTHING), []);
    var w4 := FinishFetchStep(w3, Some(NOTHING), []);
    ThenFinishSource(w0, CHANGE[..3] + [FinishFetch(Some(NOTHING), [])], w4);
    w := FinishSourceStep(w4);
    assert Referencing(OneSource("a"), 1) == {} && AddCleanups(map[], {}) == map[] && {} + Positive({}) == {};
  }

  lemma MistakeIsCorrected() returns (w: World)
    ensures Leads(Init(OneSource("a")), MISTAKE, w) && At(w, "b", {1}, {1}, map[1 := 2], FAILED, Idle)
  {
    hide Leads, Url;
    var w0 := Init(OneSource("a"));
    var w5 := FirstPublished();
    var es := CHANGE[..3] + [FinishFetch(Some(NOTHING), [])] + [FinishSource];
    LeadsOn(w0, es, w5, Tick(AN_HOUR));
    var w6 := Apply(w5, Tick(AN_HOUR));
    var w8 := ThenFetches(w0, es + [Tick(AN_HOUR)], w6, FETCHED.(now := AN_HOUR));
    ThenFinishFetch(w0, es + [Tick(AN_HOUR)] + [RequestRefresh({1})] + [TakeSource(1)], w8, None, []);
    var w9 := FinishFetchStep(w8, None, []);
    w := ThenCorrects(w0, es + [Tick(AN_HOUR)] + [RequestRefresh({1})] + [TakeSource(1)] + [FinishFetch(None, [])], w9, FAILED, Idle);
    assert MISTAKE == es + [Tick(AN_HOUR)] + [RequestRefresh({1})] + [TakeSource(1)] + [FinishFetch(None, [])] + [Mutate(CORRECTION)];
  }

  /** This happens as well, with the deletion taken first: the new URL is dropped because the
      old one is backing off, and not fetched for another eleven hours. */
  lemma BackOffCanLoseARefresh()
    ensures exists w :: Leads(Init(OneSource("a")), MISTAKE + [TakeDelete(1), TakeSource(1)], w) && Lost(w)
  {
    UrlsDiffer();
    hide Leads, Url;
    var w := MistakeIsCorrected();
    BackOffLosesTheRefresh(w, 1);
    var w' :| Leads(w, [TakeDelete(1), TakeSource(1)], w') && w'.db == w.db && 1 !in w'.q.deletes && !Kept(w', 1);
    LeadsThrough(Init(OneSource("a")), MISTAKE, w, [TakeDelete(1), TakeSource(1)], w');
    assert Lost(w');
  }
}
