/** What session epochs guarantee over every run of the manager. */
module Epochs {
  import opened ManagerModel

  // ---------------------------------------------------------------- the invariant

  /** Epochs of a channel's sessions are distinct and never ahead of the channel's. */
  predicate CreatedInv(s: State) {
    && s.created.Keys == s.phase.Keys
    && (forall id :: id in s.created ==> id < |s.created| && s.created[id].id == id)
    && (forall id :: id in s.created ==> s.created[id].epoch <= EpochOf(s, s.created[id].channel))
    && forall a, b :: a in s.created && b in s.created && a != b && s.created[a].channel == s.created[b].channel
         ==> s.created[a].epoch != s.created[b].epoch
  }

  /** A mapped session is its channel's newest one and has not left the map by itself. */
  predicate MappedInv(s: State) {
    forall c :: c in s.sessions ==>
      var m := s.sessions[c];
      m.channel == c && m.id in s.created && s.created[m.id] == m
      && m.epoch == EpochOf(s, c)
      && m.id in s.phase && !s.phase[m.id].Removed? && !s.phase[m.id].Done?
  }

  /** The session that published a sticky status: its channel's newest, and finished. */
  predicate Published(s: State, c: string, id: nat) {
    && id in s.created && id in s.phase
    && s.created[id].channel == c && s.created[id].epoch == EpochOf(s, c)
    && s.phase[id].Done?
    && c in s.sticky && s.sticky[c] == s.phase[id].status.(channel := c, viewers := 0)
  }

  ghost predicate StickyInv(s: State) {
    forall c :: c in s.sticky ==>
      c !in s.sessions && s.sticky[c].isError && !Blank(s.sticky[c].lastError)
      && s.sticky[c].channel == c && s.sticky[c].viewers == 0
      && exists id :: Published(s, c, id)
  }

  predicate BlockedInv(s: State) {
    && (forall c :: c in s.blocked ==> c !in s.sessions && c !in s.revisions && c !in s.sticky)
    && forall id :: id in s.created && s.created[id].channel in s.blocked
         ==> s.created[id].epoch < EpochOf(s, s.created[id].channel)
  }

  ghost predicate Inv(s: State) {
    CreatedInv(s) && MappedInv(s) && StickyInv(s) && BlockedInv(s) && (s.closed ==> s.sessions == map[])
  }

  // ---------------------------------------------------------------- building blocks

  /** Nothing StickyInv looks at has changed, except that channels may have left. */
  lemma StickyFrame(s: State, s': State)
    requires StickyInv(s)
    requires forall c :: c in s'.sticky ==>
               c in s.sticky && s'.sticky[c] == s.sticky[c] && c !in s'.sessions && EpochOf(s', c) == EpochOf(s, c)
    requires forall id :: id in s.created ==> id in s'.created && s'.created[id] == s.created[id]
    requires forall id :: id in s.phase && s.phase[id].Done? ==> id in s'.phase && s'.phase[id] == s.phase[id]
    ensures StickyInv(s')
  {
    hide Blank, EpochOf;
    forall c | c in s'.sticky ensures exists id :: Published(s', c, id) {
      var id :| Published(s, c, id);
      assert Published(s', c, id);
    }
  }

  /** Sessions stay as created while the channels' epochs can only grow. */
  lemma CreatedFrame(s: State, s': State)
    requires CreatedInv(s)
    requires s'.created == s.created && s'.phase.Keys == s.phase.Keys
    requires forall c :: EpochOf(s, c) <= EpochOf(s', c)
    ensures CreatedInv(s')
  {
    hide EpochOf;
  }

  lemma RetireEffect(s: State, channels: set<string>)
    ensures var s' := Retire(s, channels);
            s'.blocked == s.blocked && s'.closed == s.closed && s'.revisions == s.revisions
            && s'.created == s.created && s'.phase == s.phase && s'.stopped == s.stopped
            && s'.sessions == s.sessions - channels && s'.sticky == s.sticky - channels
    ensures forall c :: EpochOf(Retire(s, channels), c) == EpochOf(s, c) + if c in channels then 1 else 0
  {
  }

  lemma RetireKeepsCreated(s: State, channels: set<string>)
    requires CreatedInv(s)
    ensures CreatedInv(Retire(s, channels))
  {
    hide *;
    RetireEffect(s, channels);
    CreatedFrame(s, Retire(s, channels));
  }

  lemma RetireKeepsMapped(s: State, channels: set<string>)
    requires MappedInv(s)
    ensures MappedInv(Retire(s, channels))
  {
    hide Retire, EpochOf;
    RetireEffect(s, channels);
  }

  lemma RetireKeepsBlocked(s: State, channels: set<string>)
    requires BlockedInv(s)
    ensures BlockedInv(Retire(s, channels))
  {
    hide Retire, EpochOf;
    RetireEffect(s, channels);
  }

  lemma RetireKeepsSticky(s: State, channels: set<string>)
    requires StickyInv(s)
    ensures StickyInv(Retire(s, channels))
  {
    hide Retire, EpochOf, Blank;
    RetireEffect(s, channels);
    var s' := Retire(s, channels);
    forall c | c in s'.sticky
      ensures c in s.sticky && s'.sticky[c] == s.sticky[c] && c !in s'.sessions && EpochOf(s', c) == EpochOf(s, c)
    {
    }
    StickyFrame(s, s');
  }

  /** Retiring keeps the invariant; no retired channel is left mapped or sticky. */
  lemma RetireKeeps(s: State, channels: set<string>)
    requires Inv(s)
    ensures Inv(Retire(s, channels))
  {
    hide CreatedInv, MappedInv, StickyInv, BlockedInv, Retire;
    RetireEffect(s, channels);
    RetireKeepsCreated(s, channels);
    RetireKeepsMapped(s, channels);
    RetireKeepsBlocked(s, channels);
    RetireKeepsSticky(s, channels);
  }

  lemma FreshId(s: State)
    requires CreatedInv(s)
    ensures |s.created| !in s.created && |s.created| !in s.phase
    ensures forall id :: id in s.created ==> id < |s.created|
  {
    hide EpochOf;
  }

  lemma GrowByOne<K, V>(m: map<K, V>, k: K, v: V)
    requires k !in m
    ensures |m[k := v]| == |m| + 1
  {
    assert m[k := v].Keys == m.Keys + {k};
  }

  lemma StartEffect(s: State, c: string, transcode: bool)
    ensures var s' := Start(s, c, transcode); var id := |s.created|;
            s'.blocked == s.blocked && s'.closed == s.closed && s'.sticky == s.sticky - {c}
            && s'.revisions == s.revisions && s'.stopped == s.stopped
            && s'.created == s.created[id := Session(id, c, EpochOf(s, c) + 1, transcode)]
            && s'.sessions == s.sessions[c := s'.created[id]] && s'.phase == s.phase[id := Running]
    ensures forall d :: EpochOf(Start(s, c, transcode), d) == EpochOf(s, d) + if d == c then 1 else 0
  {
  }

  lemma StartKeepsCreated(s: State, c: string, transcode: bool)
    requires CreatedInv(s)
    ensures CreatedInv(Start(s, c, transcode))
  {
    hide Start, EpochOf;
    FreshId(s);
    StartEffect(s, c, transcode);
    var s', n := Start(s, c, transcode), |s.created|;
    GrowByOne(s.created, n, s'.created[n]);
    forall a, b | a in s'.created && b in s'.created && a != b && s'.created[a].channel == s'.created[b].channel
      ensures s'.created[a].epoch != s'.created[b].epoch
    {
      StartDistinct(s, c, transcode, a, b);
    }
    StartBounds(s, c, transcode);
  }

  lemma StartBounds(s: State, c: string, transcode: bool)
    requires CreatedInv(s)
    ensures var s' := Start(s, c, transcode);
            forall id :: id in s'.created ==>
              id <= |s.created| && s'.created[id].id == id && s'.created[id].epoch <= EpochOf(s', s'.created[id].channel)
  {
    hide Start, EpochOf;
    StartEffect(s, c, transcode);
    var s' := Start(s, c, transcode);
    forall id | id in s'.created
      ensures id <= |s.created| && s'.created[id].id == id && s'.created[id].epoch <= EpochOf(s', s'.created[id].channel)
    {
      if id != |s.created| {
        assert id in s.created;
        assert s.created[id].epoch <= EpochOf(s, s.created[id].channel);
      }
    }
  }

  lemma StartDistinct(s: State, c: string, transcode: bool, a: nat, b: nat)
    requires CreatedInv(s)
    requires var s' := Start(s, c, transcode);
             a in s'.created && b in s'.created && a != b && s'.created[a].channel == s'.created[b].channel
    ensures Start(s, c, transcode).created[a].epoch != Start(s, c, transcode).created[b].epoch
  {
    hide Start, EpochOf;
    StartEffect(s, c, transcode);
    if a != |s.created| {
      assert a in s.created;
      assert s.created[a].epoch <= EpochOf(s, s.created[a].channel);
    }
    if b != |s.created| {
      assert b in s.created;
      assert s.created[b].epoch <= EpochOf(s, s.created[b].channel);
    }
  }

  lemma StartKeepsMapped(s: State, c: string, transcode: bool)
    requires CreatedInv(s) && MappedInv(s)
    ensures MappedInv(Start(s, c, transcode))
  {
    hide CreatedInv, Start, EpochOf;
    FreshId(s);
    StartEffect(s, c, transcode);
  }

  lemma StartKeepsBlocked(s: State, c: string, transcode: bool)
    requires CreatedInv(s) && BlockedInv(s) && c !in s.blocked
    ensures BlockedInv(Start(s, c, transcode))
  {
    hide CreatedInv, Start, EpochOf;
    FreshId(s);
    StartEffect(s, c, transcode);
  }

  lemma StartKeepsSticky(s: State, c: string, transcode: bool)
    requires CreatedInv(s) && StickyInv(s)
    ensures StickyInv(Start(s, c, transcode))
  {
    hide CreatedInv, Start, EpochOf, Blank;
    FreshId(s);
    StartEffect(s, c, transcode);
    StickyFrame(s, Start(s, c, transcode));
  }

  lemma StartKeeps(s: State, c: string, transcode: bool)
    requires Inv(s) && c !in s.blocked && !s.closed
    ensures Inv(Start(s, c, transcode))
  {
    hide CreatedInv, MappedInv, StickyInv, BlockedInv, Start, EpochOf;
    StartEffect(s, c, transcode);
    StartKeepsCreated(s, c, transcode);
    StartKeepsMapped(s, c, transcode);
    StartKeepsBlocked(s, c, transcode);
    StartKeepsSticky(s, c, transcode);
  }

  lemma DropKeeps(s: State, c: string)
    requires Inv(s)
    ensures Inv(s.(sessions := s.sessions - {c}))
  {
    hide Blank, StickyInv, EpochOf;
    SameEpochs(s, s.(sessions := s.sessions - {c}));
    StickySessions(s, s.sessions - {c});
  }

  lemma StickySessions(s: State, sessions: map<string, Session>)
    requires StickyInv(s) && sessions.Keys <= s.sessions.Keys
    ensures StickyInv(s.(sessions := sessions))
  {
    hide Blank;
    StickyFrame(s, s.(sessions := sessions));
  }

  lemma PhaseKeepsSticky(s: State, id: nat, phase: Phase, stopped: set<nat>)
    requires StickyInv(s) && id in s.phase && !s.phase[id].Done?
    ensures StickyInv(s.(phase := s.phase[id := phase], stopped := stopped))
  {
    hide Blank;
    StickyFrame(s, s.(phase := s.phase[id := phase], stopped := stopped));
  }

  lemma PhaseKeepsRest(s: State, id: nat, phase: Phase, stopped: set<nat>)
    requires CreatedInv(s) && MappedInv(s) && BlockedInv(s) && id in s.created
    requires phase.Removed? || phase.Done? ==> forall c :: c in s.sessions ==> s.sessions[c].id != id
    ensures var s' := s.(phase := s.phase[id := phase], stopped := stopped);
            CreatedInv(s') && MappedInv(s') && BlockedInv(s')
  {
    hide EpochOf, CreatedInv, MappedInv, BlockedInv;
    var s' := s.(phase := s.phase[id := phase], stopped := stopped);
    SameEpochs(s, s');
    PhaseKeepsCreated(s, id, phase, stopped);
    PhaseKeepsMapped(s, id, phase, stopped);
    PhaseKeepsBlocked(s, s');
  }

  lemma PhaseKeepsCreated(s: State, id: nat, phase: Phase, stopped: set<nat>)
    requires CreatedInv(s) && id in s.created
    ensures CreatedInv(s.(phase := s.phase[id := phase], stopped := stopped))
  {
    hide EpochOf;
    SameEpochs(s, s.(phase := s.phase[id := phase], stopped := stopped));
  }

  lemma PhaseKeepsMapped(s: State, id: nat, phase: Phase, stopped: set<nat>)
    requires CreatedInv(s) && MappedInv(s) && id in s.created
    requires phase.Removed? || phase.Done? ==> forall c :: c in s.sessions ==> s.sessions[c].id != id
    ensures MappedInv(s.(phase := s.phase[id := phase], stopped := stopped))
  {
    hide EpochOf;
    SameEpochs(s, s.(phase := s.phase[id := phase], stopped := stopped));
  }

  lemma PhaseKeepsBlocked(s: State, s': State)
    requires BlockedInv(s) && s' == s.(phase := s'.phase, stopped := s'.stopped)
    ensures BlockedInv(s')
  {
  }

  /** Moving a session's phase forward keeps the invariant as long as a session is off the
      map before it is Removed. */
  lemma PhaseKeeps(s: State, id: nat, phase: Phase, stopped: set<nat>)
    requires Inv(s) && id in s.created && id in s.phase && !s.phase[id].Done?
    requires phase.Removed? || phase.Done? ==> forall c :: c in s.sessions ==> s.sessions[c].id != id
    ensures Inv(s.(phase := s.phase[id := phase], stopped := stopped))
  {
    hide CreatedInv, MappedInv, StickyInv, BlockedInv;
    PhaseKeepsSticky(s, id, phase, stopped);
    PhaseKeepsRest(s, id, phase, stopped);
  }

  /** Revisions, the profile and the closed flag play no part in the invariant, apart from a
      blocked channel having no revision and a closed manager no session. */
  lemma SettingsKeep(s: State, revisions: map<string, string>, profile: nat, closed: bool, stopped: set<nat>)
    requires Inv(s)
    requires forall c :: c in s.blocked ==> c !in revisions
    requires closed ==> s.sessions == map[]
    ensures Inv(s.(revisions := revisions, profile := profile, closed := closed, stopped := stopped))
  {
    hide Blank, StickyInv, EpochOf;
    var s' := s.(revisions := revisions, profile := profile, closed := closed, stopped := stopped);
    SameEpochs(s, s');
    SettingsSticky(s, s');
  }

  lemma SettingsSticky(s: State, s': State)
    requires StickyInv(s)
    requires s'.sessions == s.sessions && s'.sticky == s.sticky && s'.epochs == s.epochs
    requires s'.created == s.created && s'.phase == s.phase
    ensures StickyInv(s')
  {
    hide Blank;
    StickyFrame(s, s');
  }

  // ---------------------------------------------------------------- the steps

  lemma SubscribeKeeps(s: State, e: Event)
    requires Inv(s) && e.Subscribe?
    ensures Inv(Subscribed(s, e))
  {
    hide Inv, Restart;
    if Admission(s, e) == Attached {
      AdmittedKeeps(s, e.channel, e.revision);
      if !Shareable(s, e.channel, e.transcode) {
        RestartKeeps(Revised(s, e.channel, e.revision), e.channel, e.transcode);
      }
    }
  }

  lemma RestartKeeps(s: State, c: string, transcode: bool)
    requires Inv(s) && c !in s.blocked && !s.closed
    ensures Inv(Restart(s, c, transcode))
  {
    hide Inv, Start, Retire;
    if c in s.sessions && s.sessions[c].id !in s.stopped {
      RetireKeeps(s, {c});
      RetireEffect(s, {c});
      StartKeeps(Retire(s, {c}), c, transcode);
    } else {
      DropKeeps(s, c);
      StartKeeps(s.(sessions := s.sessions - {c}), c, transcode);
    }
  }

  /** Either way of replacing a session maps a fresh one under a newer epoch. */
  lemma RestartEffect(s: State, c: string, transcode: bool)
    ensures var s' := Restart(s, c, transcode); var id := |s.created|;
            s'.blocked == s.blocked && s'.closed == s.closed && s'.stopped == s.stopped
            && s'.created == s.created[id := Session(id, c, EpochOf(s', c), transcode)]
            && s'.sessions == s.sessions[c := s'.created[id]]
            && EpochOf(s, c) < EpochOf(s', c)
    ensures forall d :: d != c ==> EpochOf(Restart(s, c, transcode), d) == EpochOf(s, d)
  {
    hide Start, Retire, EpochOf;
    if c in s.sessions && s.sessions[c].id !in s.stopped {
      RetireEffect(s, {c});
      StartFrom(s, Retire(s, {c}), c, transcode);
    } else {
      SameEpochs(s, s.(sessions := s.sessions - {c}));
      StartFrom(s, s.(sessions := s.sessions - {c}), c, transcode);
    }
  }

  lemma StartFrom(s: State, t: State, c: string, transcode: bool)
    requires t.sessions == s.sessions - {c} && t.created == s.created
    requires t.blocked == s.blocked && t.closed == s.closed && t.stopped == s.stopped
    requires EpochOf(s, c) <= EpochOf(t, c) && forall d :: d != c ==> EpochOf(t, d) == EpochOf(s, d)
    ensures var s' := Start(t, c, transcode); var id := |s.created|;
            s'.blocked == s.blocked && s'.closed == s.closed && s'.stopped == s.stopped
            && s'.created == s.created[id := Session(id, c, EpochOf(s', c), transcode)]
            && s'.sessions == s.sessions[c := s'.created[id]]
            && EpochOf(s, c) < EpochOf(s', c)
    ensures forall d :: d != c ==> EpochOf(Start(t, c, transcode), d) == EpochOf(s, d)
  {
    hide Start, EpochOf;
    StartEffect(t, c, transcode);
    PutBack(s.sessions, c, Start(t, c, transcode).created[|s.created|]);
  }

  lemma PutBack<K, V>(m: map<K, V>, k: K, v: V)
    ensures (m - {k})[k := v] == m[k := v]
  {
  }

  lemma SameEpochs(s: State, s': State)
    requires s'.epochs == s.epochs
    ensures forall c :: EpochOf(s', c) == EpochOf(s, c)
  {
  }

  lemma AdmittedKeeps(s: State, c: string, revision: string)
    requires Inv(s) && c !in s.blocked
    ensures Inv(Revised(s, c, revision))
  {
    hide CreatedInv, MappedInv, StickyInv;
    SettingsKeep(s, s.revisions[c := revision], s.profile, s.closed, s.stopped);
  }

  lemma BlockKeeps(s: State, c: string)
    requires Inv(s)
    ensures Inv(Apply(s, Block(c)))
  {
    hide StickyInv, CreatedInv, MappedInv, Retire, EpochOf;
    RetireKeeps(s, {c});
    RetireEffect(s, {c});
    var r := Retire(s, {c});
    NewestIsBehind(s, c);
    UnblockedFrame(r, r.blocked + {c}, r.revisions - {c});
    RetireCommutes(s, c);
  }

  lemma RetireCommutes(s: State, c: string)
    ensures Apply(s, Block(c)) == Retire(s, {c}).(blocked := s.blocked + {c}, revisions := s.revisions - {c})
  {
  }

  /** Once a channel's epoch has moved on, all its sessions are behind it. */
  lemma NewestIsBehind(s: State, c: string)
    requires CreatedInv(s)
    ensures forall id :: id in s.created && s.created[id].channel == c ==>
              s.created[id].epoch < EpochOf(Retire(s, {c}), c)
  {
    hide Retire, EpochOf;
    RetireEffect(s, {c});
  }

  /** Another set of blocked channels, each of which has nothing left. */
  lemma UnblockedFrame(s: State, blocked: set<string>, revisions: map<string, string>)
    requires Inv(s)
    requires forall c :: c in blocked ==> c !in s.sessions && c !in revisions && c !in s.sticky
    requires forall id :: id in s.created && s.created[id].channel in blocked ==>
               s.created[id].epoch < EpochOf(s, s.created[id].channel)
    ensures Inv(s.(blocked := blocked, revisions := revisions))
  {
    hide Blank, StickyInv, EpochOf;
    var s' := s.(blocked := blocked, revisions := revisions);
    SameEpochs(s, s');
    SettingsSticky(s, s');
  }

  lemma PublishKeeps(s: State, c: string, revision: string, invalidate: bool)
    requires Inv(s)
    ensures Inv(Apply(s, Publish(c, revision, invalidate)))
  {
    hide StickyInv, CreatedInv, MappedInv, Retire, EpochOf;
    var revisions := if revision != "" then s.revisions[c := revision] else s.revisions;
    UnblockedFrame(s, s.blocked - {c}, revisions);
    if invalidate {
      RetireKeeps(s.(blocked := s.blocked - {c}, revisions := revisions), {c});
    }
  }

  lemma CloseKeeps(s: State)
    requires Inv(s)
    ensures Inv(Apply(s, Close))
  {
    hide Inv, Retire;
    RetireKeeps(s, s.sessions.Keys);
    RetireEffect(s, s.sessions.Keys);
    var r := Retire(s, s.sessions.Keys);
    assert r.sessions == map[];
    CloseCommutes(s);
    BlockedHaveNoRevision(r);
    SettingsKeep(r, r.revisions, r.profile, true, r.stopped);
  }

  lemma CloseCommutes(s: State)
    ensures Apply(s, Close) == Retire(s, s.sessions.Keys).(closed := true)
  {
  }

  lemma BlockedHaveNoRevision(s: State)
    requires Inv(s)
    ensures forall c :: c in s.blocked ==> c !in s.revisions
    ensures s.closed ==> s.sessions == map[]
  {
  }

  lemma ProfileKeeps(s: State, profile: nat)
    requires Inv(s)
    ensures Inv(Apply(s, ApplyProfile(profile)))
  {
    hide Inv, Retire, Transcoded;
    BlockedHaveNoRevision(s);
    SettingsKeep(s, s.revisions, profile, s.closed, s.stopped);
    RetireKeeps(s.(profile := profile), Transcoded(s));
  }

  lemma IdleKeeps(s: State, id: nat)
    requires Inv(s) && Enabled(s, OnIdle(id))
    ensures Inv(Apply(s, OnIdle(id)))
  {
    hide Inv;
    var c := s.created[id].channel;
    MappedOnce(s, id);
    if c in s.sessions && s.sessions[c] == s.created[id] {
      DropKeeps(s, c);
      PhaseKeeps(s.(sessions := s.sessions - {c}), id, Removed(s.phase[id].status), s.stopped);
    } else {
      PhaseKeeps(s, id, Removed(s.phase[id].status), s.stopped);
    }
  }

  /** A session can only be mapped under its own channel, as itself. */
  lemma MappedOnce(s: State, id: nat)
    requires Inv(s) && id in s.created
    ensures id in s.phase
    ensures forall c :: c in s.sessions && s.sessions[c].id == id ==>
              c == s.created[id].channel && s.sessions[c] == s.created[id]
              && !s.phase[id].Removed? && !s.phase[id].Done?
  {
    hide StickyInv, BlockedInv, EpochOf;
  }

  lemma FinishKeeps(s: State, id: nat)
    requires Inv(s) && Enabled(s, OnFinish(id))
    ensures Inv(Apply(s, OnFinish(id)))
  {
    hide Inv, Remember;
    var status := s.phase[id].status;
    MappedOnce(s, id);
    PhaseKeeps(s, id, Done(status), s.stopped);
    RememberKeeps(s.(phase := s.phase[id := Done(status)]), id);
  }

  /** The epoch guard alone decides: the newest session of a channel never finds the channel
      mapped when it reports, so the second guard never fires on its own. */
  lemma EpochGuardDecides(s: State, id: nat)
    requires Inv(s) && id in s.created && id in s.phase && (s.phase[id].Removed? || s.phase[id].Done?)
    requires s.created[id].epoch == EpochOf(s, s.created[id].channel)
    ensures s.created[id].channel !in s.sessions && s.created[id].channel !in s.blocked
  {
    hide StickyInv, EpochOf;
    MappedOnce(s, id);
  }

  lemma RememberKeeps(s: State, id: nat)
    requires Inv(s) && id in s.created && id in s.phase && s.phase[id].Done?
    ensures Inv(Remember(s, s.created[id], s.phase[id].status))
  {
    hide CreatedInv, MappedInv, StickyInv, EpochOf, Blank;
    var c := s.created[id].channel;
    var s' := Remember(s, s.created[id], s.phase[id].status);
    if EpochOf(s, c) == s.created[id].epoch {
      EpochGuardDecides(s, id);
      RememberFrame(s, s');
      RememberSticky(s, id);
    }
  }

  lemma RememberFrame(s: State, s': State)
    requires CreatedInv(s) && MappedInv(s)
    requires s' == s.(sticky := s'.sticky)
    ensures CreatedInv(s') && MappedInv(s')
    ensures forall c :: EpochOf(s', c) == EpochOf(s, c)
  {
    hide EpochOf;
    SameEpochs(s, s');
  }

  lemma RememberSticky(s: State, id: nat)
    requires CreatedInv(s) && MappedInv(s) && StickyInv(s) && id in s.created && id in s.phase && s.phase[id].Done?
    ensures StickyInv(Remember(s, s.created[id], s.phase[id].status))
  {
    hide Blank, StickyInv, CreatedInv, MappedInv;
    var c, status := s.created[id].channel, s.phase[id].status;
    if EpochOf(s, c) == s.created[id].epoch && c !in s.sessions {
      if status.isError && !Blank(status.lastError) {
        PublishSticky(s, c, id);
      } else {
        ClearSticky(s, c);
      }
    }
  }

  lemma ClearSticky(s: State, c: string)
    requires StickyInv(s)
    ensures StickyInv(s.(sticky := s.sticky - {c}))
  {
    hide Blank;
    StickyFrame(s, s.(sticky := s.sticky - {c}));
  }

  lemma PublishSticky(s: State, c: string, id: nat)
    requires StickyInv(s) && c !in s.sessions && id in s.created && id in s.phase && s.phase[id].Done?
    requires s.created[id].channel == c && s.created[id].epoch == EpochOf(s, c)
    requires s.phase[id].status.isError && !Blank(s.phase[id].status.lastError)
    ensures StickyInv(s.(sticky := s.sticky[c := s.phase[id].status.(channel := c, viewers := 0)]))
  {
    hide Blank;
    var s' := s.(sticky := s.sticky[c := s.phase[id].status.(channel := c, viewers := 0)]);
    assert Published(s', c, id);
    forall d | d in s'.sticky ensures exists i :: Published(s', d, i) {
      if d != c {
        var i :| Published(s, d, i);
        assert Published(s', d, i);
      }
    }
  }

  /** Every step of every kind keeps the invariant. */
  lemma StepKeeps(s: State, e: Event)
    requires Inv(s) && Enabled(s, e)
    ensures Inv(Apply(s, e))
  {
    hide Inv, Subscribed, Remember, Retire, Start;
    match e
    case Subscribe(_, _, _) => SubscribeKeeps(s, e);
    case Publish(c, revision, invalidate) => PublishKeeps(s, c, revision, invalidate);
    case Block(c) => BlockKeeps(s, c);
    case ApplyProfile(profile) => ProfileKeeps(s, profile);
    case Close => CloseKeeps(s);
    case StopSession(id) =>
      BlockedHaveNoRevision(s);
      SettingsKeep(s, s.revisions, s.profile, s.closed, s.stopped + {id});
    case TakeStatus(id, status) => PhaseKeeps(s, id, StatusTaken(status), s.stopped);
    case SelfStop(id) => PhaseKeeps(s, id, Stopping(s.phase[id].status), s.stopped + {id});
    case OnIdle(id) => IdleKeeps(s, id);
    case OnFinish(id) => FinishKeeps(s, id);
  }

  lemma InitInv(profile: nat)
    ensures Inv(Init(profile))
  {
  }

  /** Session epochs: the invariant holds after every interleaving of subscriptions,
      publications, blocks, profile changes, close and asynchronous finishers. */
  lemma {:induction false} RunKeeps(s: State, es: seq<Event>)
    requires Inv(s) && IsRun(s, es)
    ensures Inv(Run(s, es)) && forall c :: EpochOf(s, c) <= EpochOf(Run(s, es), c)
    decreases |es|
  {
    hide Apply, Enabled, Inv, EpochOf;
    if es != [] {
      StepEpochs(s, es[0]);
      StepKeeps(s, es[0]);
      RunKeeps(Apply(s, es[0]), es[1..]);
    }
  }

  // ---------------------------------------------------------------- what it means

  /** A session that was retired or replaced: its channel's epoch has moved on. */
  predicate Stale(s: State, id: nat)
    requires id in s.created
  {
    s.created[id].epoch < EpochOf(s, s.created[id].channel)
  }

  /** A stale session's finisher is silent: it neither writes nor clears a sticky status and
      does not unmap its successor. */
  lemma StaleFinisherIsSilent(s: State, id: nat, e: Event)
    requires Inv(s) && id in s.created && Stale(s, id) && Enabled(s, e)
    requires e == OnIdle(id) || e == OnFinish(id) || e == SelfStop(id)
    ensures var s' := Apply(s, e);
            s'.sessions == s.sessions && s'.sticky == s.sticky && s'.epochs == s.epochs
            && s'.revisions == s.revisions && s'.blocked == s.blocked && s'.closed == s.closed
  {
    hide StickyInv, BlockedInv, Blank;
  }

  lemma StepEpochs(s: State, e: Event)
    requires Inv(s) && Enabled(s, e)
    ensures forall c :: EpochOf(s, c) <= EpochOf(Apply(s, e), c)
    ensures forall id :: id in s.created ==> id in Apply(s, e).created && Apply(s, e).created[id] == s.created[id]
    ensures s.closed ==> Apply(s, e).closed
  {
    hide Inv, EpochOf, Retire, Subscribed, Remember;
    match e
    case Subscribe(_, _, _) =>
      CreatedPart(s);
      SubscribeEpochs(s, e);
    case Publish(c, revision, invalidate) =>
      var s1 := s.(blocked := s.blocked - {c},
                   revisions := if revision != "" then s.revisions[c := revision] else s.revisions);
      SameEpochs(s, s1);
      RetireEffect(s1, {c});
    case Block(c) =>
      RetireEffect(s, {c});
      RetireCommutes(s, c);
      SameEpochs(Retire(s, {c}), Apply(s, e));
    case ApplyProfile(profile) =>
      SameEpochs(s, s.(profile := profile));
      RetireEffect(s.(profile := profile), Transcoded(s));
    case Close =>
      SameEpochs(s, s.(closed := true));
      RetireEffect(s.(closed := true), s.sessions.Keys);
    case OnFinish(id) =>
      var s1 := s.(phase := s.phase[id := Done(s.phase[id].status)]);
      RememberEffect(s1, id, s.phase[id].status);
      SameEpochs(s, Apply(s, e));
    case _ => SameEpochs(s, Apply(s, e));
  }

  lemma CreatedPart(s: State)
    requires Inv(s)
    ensures CreatedInv(s)
  {
  }

  lemma RememberEffect(s: State, id: nat, status: Status)
    requires id in s.created
    ensures var s' := Remember(s, s.created[id], status);
            s'.epochs == s.epochs && s'.created == s.created && s'.closed == s.closed
  {
  }

  lemma SubscribeEpochs(s: State, e: Event)
    requires CreatedInv(s) && e.Subscribe?
    ensures forall c :: EpochOf(s, c) <= EpochOf(Subscribed(s, e), c)
    ensures forall id :: id in s.created ==> id in Subscribed(s, e).created && Subscribed(s, e).created[id] == s.created[id]
    ensures Subscribed(s, e).closed == s.closed
  {
    hide Restart, CreatedInv, EpochOf, Admission, Shareable;
    FreshId(s);
    var s1 := Revised(s, e.channel, e.revision);
    SameEpochs(s, s1);
    RestartEffect(s1, e.channel, e.transcode);
  }

  /** Staleness is for ever, over every run. */
  lemma {:induction false} StaleForEver(s: State, es: seq<Event>, id: nat)
    requires Inv(s) && IsRun(s, es) && id in s.created && Stale(s, id)
    ensures id in Run(s, es).created && Stale(Run(s, es), id)
    decreases |es|
  {
    hide Inv, EpochOf, Apply, Enabled;
    if es != [] {
      StepEpochs(s, es[0]);
      StepKeeps(s, es[0]);
      StaleForEver(Apply(s, es[0]), es[1..], id);
    }
  }

  /** The newest session's report is what the manager remembers: its error, or nothing. */
  lemma NewestFinisherIsHeard(s: State, id: nat)
    requires Inv(s) && Enabled(s, OnFinish(id)) && !Stale(s, id)
    ensures var s', c, st := Apply(s, OnFinish(id)), s.created[id].channel, s.phase[id].status;
            c !in s.sessions
            && (st.isError && !Blank(st.lastError) ==> c in s'.sticky && s'.sticky[c].lastError == st.lastError)
            && (!(st.isError && !Blank(st.lastError)) ==> c !in s'.sticky)
            && forall d :: d != c ==> (d in s'.sticky <==> d in s.sticky)
  {
    hide StickyInv, BlockedInv, MappedInv, Blank, EpochOf;
    EpochGuardDecides(s, id);
    SameEpochs(s, s.(phase := s.phase[id := Done(s.phase[id].status)]));
  }

  /** Once closed, no session is ever mapped again. */
  lemma {:induction false} ClosedForEver(s: State, es: seq<Event>)
    requires Inv(s) && s.closed && IsRun(s, es)
    ensures Run(s, es).closed && Run(s, es).sessions == map[]
    decreases |es|
  {
    hide Apply, Enabled, Inv;
    BlockedHaveNoRevision(s);
    if es != [] {
      StepEpochs(s, es[0]);
      StepKeeps(s, es[0]);
      ClosedForEver(Apply(s, es[0]), es[1..]);
    }
  }

  /** A subscription is attached exactly when the manager is open, the channel is not blocked
      and its revision is not stale; then a live session of the requested kind is mapped, an
      existing one being shared only if it is that already. */
  lemma SubscribeAttaches(s: State, e: Event)
    requires Inv(s) && e.Subscribe?
    ensures var s' := Apply(s, e);
            (Admission(s, e) != Attached ==> s' == s)
            && (Admission(s, e) == Attached ==>
                  e.channel in s'.sessions && s'.sessions[e.channel].transcode == e.transcode
                  && (s'.sessions[e.channel].id in s'.stopped ==> s'.sessions[e.channel].id !in s.created)
                  && (Shareable(s, e.channel, e.transcode) ==> s'.sessions == s.sessions && s'.epochs == s.epochs)
                  && (!Shareable(s, e.channel, e.transcode) ==>
                        s'.sessions[e.channel].id !in s.created
                        && EpochOf(s, e.channel) < EpochOf(s', e.channel))
                  && forall d :: d != e.channel ==> (d in s'.sessions <==> d in s.sessions) && EpochOf(s', d) == EpochOf(s, d))
  {
    hide StickyInv, BlockedInv, MappedInv, CreatedInv, Restart, EpochOf;
    FreshId(s);
    var s1 := Revised(s, e.channel, e.revision);
    SameEpochs(s, s1);
    RestartEffect(s1, e.channel, e.transcode);
  }
}
