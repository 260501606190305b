/** When a source is refreshed, backs off and is due, told from the events of a run alone. */
module RefreshTimes {
  import opened Seqs
  import opened Library
  import opened SourceCache
  import opened EpgModel
  import opened LibraryLaws

  // ---------------------------------------------------------------- what happened so far

  function Clock(es: seq<Event>): nat {
    if es == [] then 0
    else Clock(es[..|es| - 1]) + if es[|es| - 1].Tick? then es[|es| - 1].seconds else 0
  }

  /** The source that was taken last. */
  function Taken(es: seq<Event>): Option<int> {
    if es == [] then None
    else if es[|es| - 1].TakeSource? then Some(es[|es| - 1].source) else Taken(es[..|es| - 1])
  }

  function TakenAt(es: seq<Event>): nat {
    if es == [] then 0
    else if es[|es| - 1].TakeSource? then Clock(es[..|es| - 1]) else TakenAt(es[..|es| - 1])
  }

  /** The mutation inserts or removes the source. */
  predicate Replaces(m: Mutation, s: int) {
    m.Restore? || (m.CreateSource? && m.id == s) || (m.DeleteSource? && m.id == s) || (m.ImportRelay? && s in m.newSources)
  }

  /** When the last refresh of the source began that was finished since its row was inserted. */
  function RefreshedAt(db: Db, es: seq<Event>, s: int): Option<nat> {
    if es == [] then None
    else
      var before, e := es[..|es| - 1], es[|es| - 1];
      if e.FinishSource? && Taken(before) == Some(s) && SourceBy(db, before, s).Some? then Some(TakenAt(before))
      else if e.Mutate? && Replaces(e.m, s) then None
      else RefreshedAt(db, before, s)
  }

  /** Failed fetches of the source since the last refresh of it that was finished. */
  function Failures(es: seq<Event>, s: int): nat {
    if es == [] then 0
    else
      var before, e := es[..|es| - 1], es[|es| - 1];
      if Taken(before) != Some(s) then Failures(before, s)
      else if e.FinishSource? then 0
      else Failures(before, s) + if e.FinishFetch? && e.result.None? then 1 else 0
  }

  function FailedAt(es: seq<Event>, s: int): nat {
    if es == [] then 0
    else
      var before, e := es[..|es| - 1], es[|es| - 1];
      if e.FinishFetch? && e.result.None? && Taken(before) == Some(s) then Clock(before) else FailedAt(before, s)
  }

  const DELAYS := [1, 2, 4, 8, 16, 32, 64, 128, 256, 512]

  /** The wait after so many failures in a row. */
  function Delay(failures: nat): nat
    requires failures > 0
  {
    if failures < 10 then DELAYS[failures - 1] else 512
  }

  /** The refresh interval, and at least a minute, has passed since the last refresh. */
  predicate IntervalPassed(now: nat, last: Option<nat>, interval: nat) {
    last.None? || (last.value + interval <= now && last.value + 60 <= now)
  }

  // ---------------------------------------------------------------- the worker's timers

  predicate FetchFollows(busy: Busy, es: seq<Event>) {
    busy.Fetching? || busy.Published? ==> Taken(es) == Some(busy.source) && busy.began == TakenAt(es)
  }

  predicate RetryFollows(t: Timers, es: seq<Event>, s: int) {
    if Failures(es, s) == 0 then s !in t.nextRetry && s !in t.backoff
    else
      s in t.nextRetry && s in t.backoff
      && t.backoff[s] == Delay(Failures(es, s)) && t.nextRetry[s] == FailedAt(es, s) + t.backoff[s]
  }

  predicate Follows(w: World, db: Db, es: seq<Event>, s: int) {
    && w.timers.now == Clock(es)
    && Get(w.timers.last, s) == RefreshedAt(db, es, s)
    && RetryFollows(w.timers, es, s)
    && FetchFollows(w.busy, es)
  }

  lemma NextDelay(k: nat)
    ensures k == 0 ==> NextBackoff(0) == Delay(1)
    ensures k > 0 ==> NextBackoff(Delay(k)) == Delay(k + 1) && Delay(k) > 0
  {
  }

  /** What the steps do to the timers that finish no fetch. */
  lemma OtherSteps(w: World, e: Event)
    requires Enabled(w, e) && !e.FinishFetch? && !e.FinishSource?
    ensures Apply(w, e).timers
         == if e.Tick? then w.timers.(now := w.timers.now + e.seconds)
            else if e.Mutate? then w.timers.(last := LastAfter(w.timers.last, e.m)) else w.timers
    ensures var b := Apply(w, e).busy;
            b.Fetching? || b.Published? ==>
              if e.TakeSource? then b.source == e.source && b.began == w.timers.now else b == w.busy
  {
    hide Commit, Commits, Derived, Eligible, Mappings, Referencing, AddCleanups, Bumped, LastAfter;
  }

  lemma OtherEvent(db: Db, es: seq<Event>, e: Event, s: int)
    requires !e.FinishFetch? && !e.FinishSource?
    ensures var all := es + [e];
            Clock(all) == Clock(es) + (if e.Tick? then e.seconds else 0)
            && Taken(all) == (if e.TakeSource? then Some(e.source) else Taken(es))
            && TakenAt(all) == (if e.TakeSource? then Clock(es) else TakenAt(es))
            && RefreshedAt(db, all, s) == (if e.Mutate? && Replaces(e.m, s) then None else RefreshedAt(db, es, s))
            && Failures(all, s) == Failures(es, s) && FailedAt(all, s) == FailedAt(es, s)
  {
    hide SourceBy, Replaces;
    assert (es + [e])[..|es|] == es;
  }

  lemma OtherEvents(w: World, e: Event, db: Db, es: seq<Event>, s: int)
    requires Enabled(w, e) && Follows(w, db, es, s) && !e.FinishFetch? && !e.FinishSource?
    ensures Follows(Apply(w, e), db, es + [e], s)
  {
    OtherSteps(w, e);
    OtherEvent(db, es, e, s);
    hide Apply, Enabled, SourceBy, Delay, Clock, Taken, TakenAt, RefreshedAt, Failures, FailedAt;
  }

  lemma FetchEvent(w: World, e: Event, db: Db, es: seq<Event>, s: int)
    requires Enabled(w, e) && Follows(w, db, es, s) && e.FinishFetch?
    ensures Follows(Apply(w, e), db, es + [e], s)
  {
    NextDelay(Failures(es, s));
    FetchedEvent(db, es, e, s);
    FetchSteps(w, e);
    hide Apply, Enabled, SourceBy, Delay, NextBackoff, Clock, Taken, TakenAt, RefreshedAt, Failures, FailedAt;
  }

  lemma FetchSteps(w: World, e: Event)
    requires Enabled(w, e) && e.FinishFetch?
    ensures w.busy.Fetching?
    ensures Apply(w, e).timers == if e.result.None? then Failed(w.timers, w.busy.source) else w.timers
    ensures var b := Apply(w, e).busy;
            b.Fetching? || b.Published? ==> b.source == w.busy.source && b.began == w.busy.began
  {
    hide StillCurrent, Url, Publish, Failed;
  }

  lemma FetchedEvent(db: Db, es: seq<Event>, e: Event, s: int)
    requires e.FinishFetch?
    ensures var all := es + [e]; var failed := e.result.None? && Taken(es) == Some(s);
            Clock(all) == Clock(es) && Taken(all) == Taken(es) && TakenAt(all) == TakenAt(es)
            && RefreshedAt(db, all, s) == RefreshedAt(db, es, s)
            && Failures(all, s) == Failures(es, s) + (if failed then 1 else 0)
            && FailedAt(all, s) == if failed then Clock(es) else FailedAt(es, s)
  {
    hide SourceBy, Replaces;
    assert (es + [e])[..|es|] == es;
  }

  lemma FinishEvent(w: World, e: Event, db: Db, es: seq<Event>, s: int)
    requires Enabled(w, e) && Follows(w, db, es, s) && e.FinishSource?
    requires s in w.db.sources <==> SourceBy(db, es, s).Some?
    ensures Follows(Apply(w, e), db, es + [e], s)
  {
    hide Referencing, AddCleanups, SourceBy, Delay;
    assert (es + [e])[..|es|] == es;
  }

  /** After any run from a fresh start the worker's clock, refresh times, delays and retry times
      are what the events say. */
  lemma {:induction false} TimersFollowEvents(db: Db, es: seq<Event>, s: int)
    requires IsRun(Init(db), es)
    ensures Follows(Run(Init(db), es), db, es, s)
  {
    hide Apply, Enabled, Follows, SourceBy;
    if es == [] {
      FreshTimers(db, s);
    } else {
      var before, e := es[..|es| - 1], es[|es| - 1];
      assert es == before + [e];
      RunLast(Init(db), es);
      TimersFollowEvents(db, before, s);
      var w := Run(Init(db), before);
      if e.FinishFetch? {
        FetchEvent(w, e, db, before, s);
      } else if e.FinishSource? {
        RowsFollowEvents(Init(db), before, s, "");
        FinishEvent(w, e, db, before, s);
      } else {
        OtherEvents(w, e, db, before, s);
      }
    }
  }

  lemma FreshTimers(db: Db, s: int)
    ensures Follows(Init(db), db, [], s)
  {
  }

  /** The due check queues exactly the enabled sources that were never refreshed since they
      were inserted or whose interval has passed, unless they wait after failures in a row. */
  lemma DueExactly(db: Db, es: seq<Event>, s: int)
    requires IsRun(Init(db), es)
    ensures var w := Run(Init(db), es);
            var row, k := SourceBy(db, es, s), Failures(es, s);
            (s in DueSources(w.db, w.timers))
            == (row.Some? && row.value.enabled && IntervalPassed(Clock(es), RefreshedAt(db, es, s), row.value.interval)
                && (k == 0 || FailedAt(es, s) + Delay(k) <= Clock(es)))
  {
    TimersFollowEvents(db, es, s);
    RowsFollowEvents(Init(db), es, s, "");
    hide Run, IsRun, Delay, SourceBy, RefreshedAt, Failures, FailedAt, Clock;
  }
}
