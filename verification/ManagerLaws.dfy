/** What the events of a manager say about admission, and what each operation does to every
    channel. */
module ManagerLaws {
  import opened Seqs
  import opened ManagerModel
  import opened Epochs

  // ---------------------------------------------------------------- what happened so far

  predicate WasClosed(es: seq<Event>) {
    Close in es
  }

  /** The channel's last block came after its last publication. */
  predicate IsBlocked(es: seq<Event>, c: string) {
    if es == [] then false
    else
      var n := |es| - 1;
      if es[n] == Block(c) then true
      else if es[n].Publish? && es[n].channel == c then false
      else IsBlocked(es[..n], c)
  }

  /** A subscription that the events before it let in. */
  predicate LetsIn(es: seq<Event>, c: string, revision: string)
    decreases |es|, 1
  {
    !WasClosed(es) && !IsBlocked(es, c) && (revision == "" || LastRevision(es, c) == "" || LastRevision(es, c) == revision)
  }

  /** The last revision that a publication or an admitted subscription gave the channel since
      it was last blocked; blank if there is none. */
  function LastRevision(es: seq<Event>, c: string): string
    decreases |es|, 0
  {
    if es == [] then ""
    else
      var n := |es| - 1;
      match es[n]
      case Block(d) => if d == c then "" else LastRevision(es[..n], c)
      case Publish(d, revision, _) => if d == c && revision != "" then revision else LastRevision(es[..n], c)
      case Subscribe(d, revision, _) =>
        if d == c && revision != "" && LetsIn(es[..n], c, revision) then revision else LastRevision(es[..n], c)
      case _ => LastRevision(es[..n], c)
  }

  // ---------------------------------------------------------------- the state tells

  lemma {:induction false} RunLast(s: State, es: seq<Event>)
    requires es != [] && IsRun(s, es)
    ensures var n := |es| - 1;
            IsRun(s, es[..n]) && Enabled(Run(s, es[..n]), es[n]) && Run(s, es) == Apply(Run(s, es[..n]), es[n])
    decreases |es|
  {
    hide Apply, Enabled;
    var n := |es| - 1;
    if n == 0 {
      assert es[..0] == [];
    } else {
      RunLast(Apply(s, es[0]), es[1..]);
      assert es[1..][..n - 1] == es[..n][1..];
    }
  }

  ghost predicate Recalls(es: seq<Event>, s: State) {
    (s.closed <==> WasClosed(es)) && forall c :: RecallsChannel(es, s, c)
  }

  predicate RecallsChannel(es: seq<Event>, s: State, c: string) {
    && (c in s.blocked <==> IsBlocked(es, c))
    && (c in s.revisions <==> LastRevision(es, c) != "")
    && (c in s.revisions ==> s.revisions[c] == LastRevision(es, c))
  }

  /** Who may come in, of the fields that admission looks at. */
  lemma VerdictIs(es: seq<Event>, s: State, c: string, revision: string, transcode: bool)
    requires Recalls(es, s)
    ensures var v := Admission(s, Subscribe(c, revision, transcode));
            (v == ErrClosed <==> WasClosed(es))
            && (v == ErrBlocked <==> !WasClosed(es) && IsBlocked(es, c))
            && (v == ErrStale <==>
                  !WasClosed(es) && !IsBlocked(es, c) && revision != "" && LastRevision(es, c) != "" && LastRevision(es, c) != revision)
            && (v == Attached <==> LetsIn(es, c, revision))
  {
    hide WasClosed, IsBlocked, LastRevision;
    assert RecallsChannel(es, s, c);
  }

  /** What each event makes of closing, blocks and revisions. */
  lemma SettingsStep(s: State, e: Event)
    requires Enabled(s, e)
    ensures var s' := Apply(s, e);
            (s'.closed <==> s.closed || e.Close?)
            && s'.blocked == (if e.Block? then s.blocked + {e.channel} else if e.Publish? then s.blocked - {e.channel} else s.blocked)
            && s'.revisions
               == if e.Block? then s.revisions - {e.channel}
                  else if e.Publish? && e.revision != "" then s.revisions[e.channel := e.revision]
                  else if e.Subscribe? && Admission(s, e) == Attached && e.revision != "" then s.revisions[e.channel := e.revision]
                  else s.revisions
  {
    hide Retire, Restart, Remember, Admission;
    match e
    case Subscribe(_, _, _) =>
      SubscribeSettings(s, e);
    case Publish(c, revision, _) =>
      RetireEffect(s.(blocked := s.blocked - {c}, revisions := if revision != "" then s.revisions[c := revision] else s.revisions), {c});
    case Block(c) => RetireEffect(s.(blocked := s.blocked + {c}, revisions := s.revisions - {c}), {c});
    case ApplyProfile(profile) => RetireEffect(s.(profile := profile), Transcoded(s));
    case Close => RetireEffect(s.(closed := true), s.sessions.Keys);
    case OnFinish(id) => RememberSettings(s.(phase := s.phase[id := Done(s.phase[id].status)]), s.created[id], s.phase[id].status);
    case _ =>
  }

  lemma SubscribeSettings(s: State, e: Event)
    requires e.Subscribe?
    ensures var s' := Apply(s, e);
            s'.closed == s.closed && s'.blocked == s.blocked
            && s'.revisions
               == if Admission(s, e) == Attached && e.revision != "" then s.revisions[e.channel := e.revision] else s.revisions
  {
    SubscribeStep(s, e);
    hide Apply, Restart, Admission;
    RestartSettings(Revised(s, e.channel, e.revision), e.channel, e.transcode);
  }

  lemma RestartSettings(s: State, c: string, transcode: bool)
    ensures var s' := Restart(s, c, transcode);
            s'.closed == s.closed && s'.blocked == s.blocked && s'.revisions == s.revisions && s'.profile == s.profile
  {
    hide Start, EpochOf;
    StartSettings(s.(sessions := s.sessions - {c}), c, transcode);
    StartSettings(Retire(s, {c}), c, transcode);
  }

  lemma StartSettings(s: State, c: string, transcode: bool)
    ensures var s' := Start(s, c, transcode);
            s'.closed == s.closed && s'.blocked == s.blocked && s'.revisions == s.revisions && s'.profile == s.profile
  {
    hide EpochOf;
  }

  lemma SubscribeStep(s: State, e: Event)
    requires e.Subscribe?
    ensures Apply(s, e) == Subscribed(s, e)
  {
    hide Subscribed;
  }

  lemma RememberSettings(s: State, session: Session, status: Status)
    ensures var s' := Remember(s, session, status);
            s'.closed == s.closed && s'.blocked == s.blocked && s'.revisions == s.revisions
  {
  }

  lemma BlockedStep(es: seq<Event>, c: string)
    requires es != []
    ensures var n := |es| - 1;
            IsBlocked(es, c) <==> es[n] == Block(c) || (!(es[n].Publish? && es[n].channel == c) && IsBlocked(es[..n], c))
  {
  }

  lemma RevisionStep(es: seq<Event>, c: string)
    requires es != []
    ensures var n := |es| - 1; var e := es[n];
            LastRevision(es, c)
            == if e == Block(c) then ""
               else if e.Publish? && e.channel == c && e.revision != "" then e.revision
               else if e.Subscribe? && e.channel == c && e.revision != "" && LetsIn(es[..n], c, e.revision) then e.revision
               else LastRevision(es[..n], c)
  {
    hide LetsIn;
  }

  lemma RecallsStep(es: seq<Event>, s: State)
    requires es != [] && Recalls(es[..|es| - 1], s) && Enabled(s, es[|es| - 1])
    ensures Recalls(es, Apply(s, es[|es| - 1]))
  {
    var n := |es| - 1;
    var e := es[n];
    SettingsStep(s, e);
    assert es == es[..n] + [e];
    if e.Subscribe? {
      VerdictIs(es[..n], s, e.channel, e.revision, e.transcode);
    }
    hide Apply, Enabled, Admission, LetsIn, IsBlocked, LastRevision, RecallsChannel;
    forall c ensures RecallsChannel(es, Apply(s, e), c) {
      ChannelStep(es, s, Apply(s, e), c);
    }
  }

  /** One channel, of the fields that admission looks at. */
  lemma ChannelStep(es: seq<Event>, s: State, s': State, c: string)
    requires es != [] && RecallsChannel(es[..|es| - 1], s, c)
    requires var e := es[|es| - 1];
             s'.blocked == (if e.Block? then s.blocked + {e.channel} else if e.Publish? then s.blocked - {e.channel} else s.blocked)
             && s'.revisions
                == if e.Block? then s.revisions - {e.channel}
                   else if e.Publish? && e.revision != "" then s.revisions[e.channel := e.revision]
                   else if e.Subscribe? && LetsIn(es[..|es| - 1], e.channel, e.revision) && e.revision != ""
                   then s.revisions[e.channel := e.revision] else s.revisions
    ensures RecallsChannel(es, s', c)
  {
    BlockedStep(es, c);
    RevisionStep(es, c);
    hide LetsIn, IsBlocked, LastRevision;
  }

  lemma {:induction false} StateRecalls(profile: nat, es: seq<Event>)
    requires IsRun(Init(profile), es)
    ensures Recalls(es, Run(Init(profile), es))
    decreases |es|
  {
    if es != [] {
      RunLast(Init(profile), es);
      hide Recalls, Apply, Enabled, IsRun, Run;
      StateRecalls(profile, es[..|es| - 1]);
      RecallsStep(es, Run(Init(profile), es[..|es| - 1]));
    }
  }

  // ---------------------------------------------------------------- admission

  /** A subscription after any run, said from the events before it. It is refused because the
      manager was closed, because the channel is blocked, or because the channel has another
      revision; then nothing changes. Otherwise it is let in: a session of the requested kind
      is mapped, and the revision asked for, if any, is the channel's. */
  lemma AdmissionFollowsEvents(profile: nat, es: seq<Event>, c: string, revision: string, transcode: bool)
    requires IsRun(Init(profile), es)
    ensures var s := Run(Init(profile), es); var e := Subscribe(c, revision, transcode); var v := Admission(s, e);
            (v == ErrClosed <==> WasClosed(es))
            && (v == ErrBlocked <==> !WasClosed(es) && IsBlocked(es, c))
            && (v == ErrStale <==>
                  !WasClosed(es) && !IsBlocked(es, c) && revision != "" && LastRevision(es, c) != "" && LastRevision(es, c) != revision)
            && (v == Attached <==> LetsIn(es, c, revision))
            && (!LetsIn(es, c, revision) ==> Apply(s, e) == s)
    ensures var s := Run(Init(profile), es); var s' := Apply(s, Subscribe(c, revision, transcode));
            LetsIn(es, c, revision) ==>
              c in s'.sessions && s'.sessions[c].transcode == transcode && s'.sessions[c].id !in s'.stopped
              && s'.sessions[c].channel == c
              && (revision != "" ==> c in s'.revisions && s'.revisions[c] == revision)
              && (revision == "" ==> s'.revisions == s.revisions)
  {
    StateRecalls(profile, es);
    var s := Run(Init(profile), es);
    RunKeepsInv(profile, es);
    hide Run, IsRun;
    VerdictIs(es, s, c, revision, transcode);
    var e := Subscribe(c, revision, transcode);
    SettingsStep(s, e);
    hide Recalls, WasClosed, IsBlocked, LastRevision, LetsIn, Inv, StoppedExist;
    if Admission(s, e) == Attached {
      Mapped(s, c, revision, transcode);
    }
  }

  predicate StoppedExist(s: State) {
    s.stopped <= s.created.Keys
  }

  lemma StoppedStep(s: State, e: Event)
    requires Inv(s) && StoppedExist(s) && Enabled(s, e)
    ensures StoppedExist(Apply(s, e))
  {
    StepEpochs(s, e);
    StoppedBy(s, e);
    hide Apply, Enabled, Inv, EpochOf;
  }

  lemma StoppedBy(s: State, e: Event)
    requires Enabled(s, e)
    ensures Apply(s, e).stopped <= s.stopped + s.created.Keys
  {
    hide Retire, Restart, Remember, Admission;
    match e
    case Subscribe(c, revision, transcode) =>
      RestartEffect(Revised(s, c, revision), c, transcode);
    case Publish(c, revision, _) =>
      RetireEffect(s.(blocked := s.blocked - {c}, revisions := if revision != "" then s.revisions[c := revision] else s.revisions), {c});
    case Block(c) => RetireEffect(s.(blocked := s.blocked + {c}, revisions := s.revisions - {c}), {c});
    case ApplyProfile(profile) => RetireEffect(s.(profile := profile), Transcoded(s));
    case Close => RetireEffect(s.(closed := true), s.sessions.Keys);
    case OnFinish(id) => RememberStopped(s.(phase := s.phase[id := Done(s.phase[id].status)]), s.created[id], s.phase[id].status);
    case _ =>
  }

  lemma RememberStopped(s: State, session: Session, status: Status)
    ensures Remember(s, session, status).stopped == s.stopped
  {
  }

  lemma {:induction false} RunKeepsInv(profile: nat, es: seq<Event>)
    requires IsRun(Init(profile), es)
    ensures Inv(Run(Init(profile), es)) && StoppedExist(Run(Init(profile), es))
    decreases |es|
  {
    if es == [] {
      InitInv(profile);
    } else {
      var n := |es| - 1;
      RunLast(Init(profile), es);
      hide Inv, Apply, Enabled, IsRun, Run, StoppedExist;
      RunKeepsInv(profile, es[..n]);
      StepKeeps(Run(Init(profile), es[..n]), es[n]);
      StoppedStep(Run(Init(profile), es[..n]), es[n]);
    }
  }

  lemma Mapped(s: State, c: string, revision: string, transcode: bool)
    requires Inv(s) && StoppedExist(s) && Admission(s, Subscribe(c, revision, transcode)) == Attached
    ensures var s' := Apply(s, Subscribe(c, revision, transcode));
            c in s'.sessions && s'.sessions[c].transcode == transcode && s'.sessions[c].id !in s'.stopped && s'.sessions[c].channel == c
  {
    FreshId(s);
    SubscribeStep(s, Subscribe(c, revision, transcode));
    var s1 := Revised(s, c, revision);
    RestartEffect(s1, c, transcode);
    MappedUnderItsName(s, c);
    hide Apply, Inv, Restart, EpochOf, Admission;
  }

  lemma MappedUnderItsName(s: State, c: string)
    requires Inv(s)
    ensures c in s.sessions ==> s.sessions[c].channel == c
  {
  }

  /** Who is let in shares the live session of the kind asked for, if there is one. */
  lemma LiveSessionIsShared(s: State, c: string, revision: string, transcode: bool)
    requires Admission(s, Subscribe(c, revision, transcode)) == Attached
    requires c in s.sessions && s.sessions[c].id !in s.stopped && s.sessions[c].transcode == transcode
    ensures var s' := Apply(s, Subscribe(c, revision, transcode));
            s'.sessions == s.sessions && s'.created == s.created && s'.sticky == s.sticky && s'.epochs == s.epochs
  {
    SubscribeStep(s, Subscribe(c, revision, transcode));
    hide Apply, Restart, EpochOf, Admission;
  }

  /** The channel has a session that was not there before, and every other one has what it had. */
  predicate Adds(s: State, s': State, c: string) {
    && c in s'.sessions && s'.sessions[c].id !in s.created && c !in s'.sticky
    && s'.created.Keys == s.created.Keys + {s'.sessions[c].id}
    && s'.sessions == s.sessions[c := s'.sessions[c]]
  }

  lemma RestartAdds(s: State, c: string, transcode: bool)
    requires |s.created| !in s.created
    ensures Adds(s, Restart(s, c, transcode), c)
  {
    RestartEffect(s, c, transcode);
    RestartForgets(s, c, transcode);
    hide Restart, EpochOf;
  }

  /** Otherwise a new one is started, and what the last one left behind is forgotten. */
  lemma OtherwiseOneIsStarted(s: State, c: string, revision: string, transcode: bool)
    requires Inv(s) && Admission(s, Subscribe(c, revision, transcode)) == Attached
    requires c in s.sessions ==> s.sessions[c].id in s.stopped || s.sessions[c].transcode != transcode
    ensures var s' := Apply(s, Subscribe(c, revision, transcode));
            Adds(s, s', c)
  {
    hide *;
    CreatedPart(s);
    FreshId(s);
    RestartStep(s, c, revision, transcode);
    SameSessions(s, c, revision);
    RestartAdds(Revised(s, c, revision), c, transcode);
    AddsAlike(s, Revised(s, c, revision), Restart(Revised(s, c, revision), c, transcode), c);
  }

  lemma SameSessions(s: State, c: string, revision: string)
    ensures Revised(s, c, revision).sessions == s.sessions && Revised(s, c, revision).created == s.created
  {
  }

  lemma AddsAlike(s: State, t: State, s': State, c: string)
    requires t.sessions == s.sessions && t.created == s.created
    ensures Adds(s, s', c) == Adds(t, s', c)
  {
  }

  lemma RestartStep(s: State, c: string, revision: string, transcode: bool)
    requires Admission(s, Subscribe(c, revision, transcode)) == Attached
    requires c in s.sessions ==> s.sessions[c].id in s.stopped || s.sessions[c].transcode != transcode
    ensures Apply(s, Subscribe(c, revision, transcode)) == Restart(Revised(s, c, revision), c, transcode)
  {
    SubscribeStep(s, Subscribe(c, revision, transcode));
    hide Apply, Restart, Admission, Revised;
  }

  lemma RestartForgets(s: State, c: string, transcode: bool)
    ensures c !in Restart(s, c, transcode).sticky
  {
    hide EpochOf;
  }

  // ---------------------------------------------------------------- operations

  /** What happens to a set of channels that are retired, and to all others. */
  predicate Retired(s: State, s': State, channels: set<string>) {
    && s'.sessions.Keys == s.sessions.Keys - channels && (forall d :: d in s'.sessions ==> s'.sessions[d] == s.sessions[d])
    && s'.sticky.Keys == s.sticky.Keys - channels && (forall d :: d in s'.sticky ==> s'.sticky[d] == s.sticky[d])
    && s'.created == s.created && s'.stopped == s.stopped && s'.phase == s.phase
  }

  ghost predicate Moved(s: State, s': State, channels: set<string>) {
    forall d :: EpochOf(s', d) == EpochOf(s, d) + if d in channels then 1 else 0
  }

  lemma RetiresThese(s: State, channels: set<string>)
    ensures Retired(s, Retire(s, channels), channels) && Moved(s, Retire(s, channels), channels)
  {
    RetireEffect(s, channels);
    hide Retire, EpochOf;
  }

  /** A publication unblocks the channel, records its revision if it has one, and detaches the
      session only when asked to; other channels are left alone. */
  lemma PublishDoes(s: State, c: string, revision: string, invalidate: bool)
    ensures var s' := Apply(s, Publish(c, revision, invalidate));
            Retired(s, s', if invalidate then {c} else {}) && Moved(s, s', if invalidate then {c} else {})
            && s'.blocked == s.blocked - {c} && s'.closed == s.closed && s'.profile == s.profile
            && s'.revisions == if revision != "" then s.revisions[c := revision] else s.revisions
  {
    var s1 := s.(blocked := s.blocked - {c}, revisions := if revision != "" then s.revisions[c := revision] else s.revisions);
    RetiresThese(s1, {c});
    RetireProfile(s1, {c});
    RetireEffect(s1, {c});
    SameEpochs(s, s1);
    hide Retire, EpochOf;
  }

  lemma RetireProfile(s: State, channels: set<string>)
    ensures Retire(s, channels).profile == s.profile
  {
  }

  /** A block detaches the session and forgets the revision. */
  lemma BlockDoes(s: State, c: string)
    ensures var s' := Apply(s, Block(c));
            Retired(s, s', {c}) && Moved(s, s', {c}) && s'.blocked == s.blocked + {c} && s'.revisions == s.revisions - {c}
            && s'.closed == s.closed && s'.profile == s.profile
  {
    var s1 := s.(blocked := s.blocked + {c}, revisions := s.revisions - {c});
    RetiresThese(s1, {c});
    RetireProfile(s1, {c});
    RetireEffect(s1, {c});
    SameEpochs(s, s1);
    hide Retire, EpochOf;
  }

  /** A new profile detaches the transcoding sessions and no others. */
  lemma ProfileDoes(s: State, profile: nat)
    ensures var s' := Apply(s, ApplyProfile(profile)); var gone := set c | c in s.sessions && s.sessions[c].transcode;
            Retired(s, s', gone) && Moved(s, s', gone) && s'.profile == profile
            && s'.blocked == s.blocked && s'.revisions == s.revisions && s'.closed == s.closed
  {
    var s1 := s.(profile := profile);
    RetiresThese(s1, Transcoded(s));
    RetireProfile(s1, Transcoded(s));
    RetireEffect(s1, Transcoded(s));
    SameEpochs(s, s1);
    hide Retire, EpochOf;
  }

  /** Closing detaches every session. */
  lemma CloseDoes(s: State)
    ensures var s' := Apply(s, Close);
            Retired(s, s', s.sessions.Keys) && Moved(s, s', s.sessions.Keys) && s'.closed && s'.sessions == map[]
            && s'.blocked == s.blocked && s'.revisions == s.revisions
  {
    var s1 := s.(closed := true);
    RetiresThese(s1, s.sessions.Keys);
    RetireEffect(s1, s.sessions.Keys);
    SameEpochs(s, s1);
    hide Retire, EpochOf;
  }

  /** A session leaves the map on its own only if it is the one mapped. */
  lemma LeavesMap(s: State, id: nat)
    requires Enabled(s, OnIdle(id))
    ensures var s' := Apply(s, OnIdle(id)); var c := s.created[id].channel;
            s'.sessions == (if c in s.sessions && s.sessions[c] == s.created[id] then s.sessions - {c} else s.sessions)
            && s'.sticky == s.sticky && s'.epochs == s.epochs && s'.revisions == s.revisions && s'.blocked == s.blocked
  {
  }
}
