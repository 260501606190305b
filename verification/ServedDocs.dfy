/** Which fetched document a source serves, told from the events of a run alone. */
module ServedDocs {
  import opened Seqs
  import opened Text
  import opened RelayXml
  import opened Library
  import opened SourceCache
  import opened EpgModel
  import opened LibraryLaws
  import opened RefreshTimes

  // ---------------------------------------------------------------- what happened so far

  /** After the events `before` the mutation removes the source, moves it to another URL or
      replaces the library it is in. */
  predicate Uproots(db: Db, before: seq<Event>, m: Mutation, s: int) {
    var row := SourceBy(db, before, s);
    var next := SourceAfter(row, m, s);
    row.Some? && (m.Restore? || next.None? || Trim(next.value.url) != Trim(row.value.url))
  }

  /** That happened to the source since a source was last taken. */
  predicate Overtaken(db: Db, es: seq<Event>, s: int) {
    if es == [] then false
    else
      var before, e := es[..|es| - 1], es[|es| - 1];
      !e.TakeSource? && (Overtaken(db, before, s) || (e.Mutate? && Uproots(db, before, e.m, s)))
  }

  datatype Copy = Copy(doc: Doc, url: string)

  /** The event completes a fetch of the source that was not overtaken. */
  predicate Delivers(db: Db, before: seq<Event>, e: Event, s: int) {
    e.FinishFetch? && e.result.Some? && Taken(before) == Some(s) && !Overtaken(db, before, s)
  }

  /** The event takes up the deletion of the source's files, or a source that is not there. */
  predicate Clears(db: Db, before: seq<Event>, e: Event, s: int) {
    (e.TakeDelete? && e.source == s) || (e.TakeSource? && e.source == s && SourceBy(db, before, s).None?)
  }

  function UrlBy(db: Db, es: seq<Event>, s: int): string {
    if SourceBy(db, es, s).Some? then Trim(SourceBy(db, es, s).value.url) else ""
  }

  /** The last document delivered and not cleared away since, with the URL it is from. */
  function Served(db: Db, es: seq<Event>, s: int): Option<Copy> {
    if es == [] then None
    else
      var before, e := es[..|es| - 1], es[|es| - 1];
      if Delivers(db, before, e, s) then Some(Copy(e.result.value, UrlBy(db, before, s)))
      else if Clears(db, before, e, s) then None
      else Served(db, before, s)
  }

  // ---------------------------------------------------------------- the cache follows

  predicate CopyFollows(c: Cache, copy: Option<Copy>, s: int) {
    && (s in c.manifests <==> copy.Some?)
    && (s in c.manifests ==>
          var g := c.manifests[s].gen;
          g in c.live && g in c.gens && c.gens[g].doc == copy.value.doc && c.manifests[s].url == copy.value.url)
  }

  /** A fetch under way for s knows the present revision exactly when it was not overtaken. */
  predicate FetchKnows(w: World, overtaken: bool, s: int) {
    w.busy.Fetching? && w.busy.source == s ==>
      w.busy.seen <= RevOf(w.revs, s)
      && (w.busy.seen == RevOf(w.revs, s) <==> !overtaken)
      && (!overtaken ==> s in w.db.sources && Url(w.db.sources[s].url) == Url(w.busy.url))
  }

  predicate ServesAs(w: World, copy: Option<Copy>, overtaken: bool, s: int) {
    ManifestsOk(w.cache) && CopyFollows(w.cache, copy, s) && FetchKnows(w, overtaken, s)
  }

  lemma MutateSteps(w: World, m: Mutation)
    requires Enabled(w, Mutate(m))
    ensures Commits(w.db, m)
    ensures var w', work := Apply(w, Mutate(m)), Derived(w.db, m);
            w'.db == Commit(w.db, m) && w'.cache == Forget(w.cache, work.invalidate + work.deletes)
            && w'.revs == Bumped(w.revs, work.invalidate, work.deletes) && w'.busy == w.busy
  {
    hide Commit, Derived, Commits, Enqueue, Forget, Bumped, LastAfter;
  }

  lemma MutateServes(w: World, m: Mutation, copy: Option<Copy>, overtaken: bool, s: int)
    requires Enabled(w, Mutate(m)) && ServesAs(w, copy, overtaken, s)
    ensures ServesAs(Apply(w, Mutate(m)), copy, overtaken || s in Derived(w.db, m).deletes, s)
  {
    FilesAreDeletedExactly(w.db, m, s);
    MutateSteps(w, m);
    hide Apply, Enabled, Commit, Derived, Commits, AddCleanups, Trim;
  }

  lemma TakeServes(w: World, e: Event, copy: Option<Copy>, overtaken: bool, s: int)
    requires Enabled(w, e) && (e.TakeSource? || e.TakeDelete?) && ServesAs(w, copy, overtaken, s)
    ensures var gone := e.source == s && (e.TakeDelete? || s !in w.db.sources);
            ServesAs(Apply(w, e), if gone then None else copy, !e.TakeSource? && overtaken, s)
  {
    hide Url, BackingOff;
  }

  lemma FetchServes(w: World, e: Event, copy: Option<Copy>, overtaken: bool, s: int)
    requires Enabled(w, e) && e.FinishFetch? && ServesAs(w, copy, overtaken, s)
    ensures var done := w.busy.source == s && e.result.Some? && !overtaken;
            ServesAs(Apply(w, e), if done then Some(Copy(e.result.value, Url(w.db.sources[s].url))) else copy, overtaken, s)
  {
    hide Url, Failed;
  }

  lemma LookupSteps(w: World, e: Event)
    requires Enabled(w, e) && (e.OpenLookup? || e.LoadLookup? || e.StoreLookup?)
    ensures var w' := Apply(w, e);
            w' == w.(cache := w'.cache) && w'.cache.manifests == w.cache.manifests && w'.cache.gens == w.cache.gens
            && w'.cache.live == w.cache.live && w'.cache.next == w.cache.next
  {
    hide Url, Usable, SourceCache.TagFits, Eligible, Mappings, Referencing, Enqueue, Owned, Build;
    hide Commit, Commits, Derived, Publish, Wipe, StillCurrent;
  }

  /** The other events leave documents, rows and revisions alone. */
  lemma OtherSteps(w: World, e: Event)
    requires Enabled(w, e) && !e.Mutate? && !e.TakeSource? && !e.TakeDelete? && !e.FinishFetch?
    ensures var w' := Apply(w, e);
            w'.cache.manifests == w.cache.manifests && w'.cache.gens == w.cache.gens && w'.cache.live == w.cache.live
            && w'.cache.next == w.cache.next && w'.db == w.db && w'.revs == w.revs
            && (w'.busy.Fetching? ==> w'.busy == w.busy)
  {
    if e.OpenLookup? || e.LoadLookup? || e.StoreLookup? {
      LookupSteps(w, e);
    } else {
      hide Url, Eligible, Mappings, Referencing, Enqueue, Open, Load, Store, Owned, Build, Ready, BackingOff;
    }
  }

  lemma OtherServes(w: World, e: Event, copy: Option<Copy>, overtaken: bool, s: int)
    requires Enabled(w, e) && ServesAs(w, copy, overtaken, s)
    requires !e.Mutate? && !e.TakeSource? && !e.TakeDelete? && !e.FinishFetch?
    ensures ServesAs(Apply(w, e), copy, overtaken, s)
  {
    OtherSteps(w, e);
    hide Apply, Enabled, Url;
  }

  lemma ServedStep(db: Db, es: seq<Event>, e: Event, s: int)
    ensures Served(db, es + [e], s)
         == if Delivers(db, es, e, s) then Some(Copy(e.result.value, UrlBy(db, es, s)))
            else if Clears(db, es, e, s) then None else Served(db, es, s)
    ensures Overtaken(db, es + [e], s)
         == (!e.TakeSource? && (Overtaken(db, es, s) || (e.Mutate? && Uproots(db, es, e.m, s))))
  {
    hide Delivers, Clears, Uproots, UrlBy;
    assert (es + [e])[..|es|] == es;
  }

  /** After any run from a fresh start a source has exactly the document delivered last, unless
      it was cleared away since; overtaken fetches deliver nothing, all others do. */
  lemma {:induction false} ServedFollowsEvents(db: Db, es: seq<Event>, s: int)
    requires IsRun(Init(db), es)
    ensures ServesAs(Run(Init(db), es), Served(db, es, s), Overtaken(db, es, s), s)
  {
    hide Apply, Enabled, ServesAs, SourceBy, Served, Overtaken, Follows;
    if es == [] {
      NothingServed(db, s);
    } else {
      var before, e := es[..|es| - 1], es[|es| - 1];
      assert es == before + [e];
      RunLast(Init(db), es);
      ServedFollowsEvents(db, before, s);
      ServedStep(db, before, e, s);
      RowsFollowEvents(Init(db), before, s, "");
      var w, copy, overtaken := Run(Init(db), before), Served(db, before, s), Overtaken(db, before, s);
      hide Run, IsRun;
      if e.Mutate? {
        UprootsExactly(w, db, before, e.m, s);
        MutateServes(w, e.m, copy, overtaken, s);
      } else if e.TakeSource? || e.TakeDelete? {
        TakeServes(w, e, copy, overtaken, s);
      } else if e.FinishFetch? {
        ServesKnows(w, copy, overtaken, s);
        TimersFollowEvents(db, before, s);
        FetchDelivers(w, db, before, e, s);
        FetchServes(w, e, copy, overtaken, s);
      } else {
        OtherServes(w, e, copy, overtaken, s);
      }
    }
  }

  lemma NothingServed(db: Db, s: int)
    ensures ServesAs(Init(db), Served(db, [], s), Overtaken(db, [], s), s)
  {
  }

  lemma ServesKnows(w: World, copy: Option<Copy>, overtaken: bool, s: int)
    requires ServesAs(w, copy, overtaken, s)
    ensures FetchKnows(w, overtaken, s)
  {
  }

  lemma UprootsExactly(w: World, db: Db, before: seq<Event>, m: Mutation, s: int)
    requires Enabled(w, Mutate(m)) && Get(w.db.sources, s) == SourceBy(db, before, s)
    ensures Uproots(db, before, m, s) <==> s in Derived(w.db, m).deletes
  {
    MutationSays(w.db, m, s, "");
    FilesAreDeletedExactly(w.db, m, s);
    hide Commit, Derived, Commits, Trim, SourceBy, SourceAfter;
  }

  lemma FetchDelivers(w: World, db: Db, before: seq<Event>, e: Event, s: int)
    requires Enabled(w, e) && e.FinishFetch? && Follows(w, db, before, s) && Get(w.db.sources, s) == SourceBy(db, before, s)
    requires FetchKnows(w, Overtaken(db, before, s), s)
    ensures w.busy.Fetching? && !Clears(db, before, e, s)
    ensures Delivers(db, before, e, s) <==> w.busy.source == s && e.result.Some? && !Overtaken(db, before, s)
    ensures Delivers(db, before, e, s) ==> s in w.db.sources && UrlBy(db, before, s) == Url(w.db.sources[s].url)
  {
    hide Taken, SourceBy, RetryFollows, Overtaken, RefreshedAt;
  }

  /** A source is served exactly when the document delivered last is from the URL its row has
      now; and then it is that document. */
  lemma EligibleExactly(db: Db, es: seq<Event>, s: int)
    requires IsRun(Init(db), es)
    ensures var w, copy, url := Run(Init(db), es), Served(db, es, s), UrlBy(db, es, s);
            Eligible(w.db, w.cache, s) == (copy.Some? && url != "" && copy.value.url == url)
    ensures var w := Run(Init(db), es);
            Eligible(w.db, w.cache, s) ==>
              var g := w.cache.manifests[s].gen;
              g in w.cache.gens && Served(db, es, s).Some? && w.cache.gens[g].doc == Served(db, es, s).value.doc
  {
    ServedFollowsEvents(db, es, s);
    RowsFollowEvents(Init(db), es, s, "");
    hide Run, IsRun, Served, SourceBy, Overtaken, Trim;
  }

  /** Right after a source is finished its index is in memory: a lookup hits, and answers with
      the channels just fetched. */
  lemma FinishedIsHit(w: World, doc: Doc, channels: seq<ChannelInfo>, t: nat)
    requires w.busy.Fetching? && StillCurrent(w) && Url(w.busy.url) != ""
    ensures var w1 := FinishFetchStep(w, Some(doc), channels);
            w1.busy.Published?
            && (var w2 := FinishSourceStep(w1);
                var c := Open(w2.cache, t, w.busy.source, w.busy.url);
                t in c.lookups && Hit(c, t) && c.tags[w.busy.source].channels == channels)
  {
    UrlTwice(w.busy.url);
    hide Url, Enqueue, Referencing;
  }
}
