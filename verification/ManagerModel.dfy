/** The session manager of internal/core/stream/manager.go as a state machine: one step per
    region the manager lock protects, plus the asynchronous end of every session
    (the deferred block of run in internal/core/stream/pump.go). */
module ManagerModel {
  import opened Seqs
  import opened Text

  /** What never changes about a session object. Its identity is `id`. */
  datatype Session = Session(id: nat, channel: string, epoch: nat, transcode: bool)

  datatype Status = Status(channel: string, isError: bool, lastError: string, viewers: nat)

  /** How far the deferred block of run has come: the terminal status is taken, the session
      stopped, then it removes itself from the manager, then it reports its status. */
  datatype Phase = Running | StatusTaken(status: Status) | Stopping(status: Status) | Removed(status: Status) | Done(status: Status)

  datatype State = State(
    sessions: map<string, Session>, revisions: map<string, string>, blocked: set<string>,
    sticky: map<string, Status>, epochs: map<string, nat>, profile: nat, closed: bool,
    // every session ever created, and what its own goroutine has done
    created: map<nat, Session>, stopped: set<nat>, phase: map<nat, Phase>)

  datatype Event =
    | Subscribe(channel: string, revision: string, transcode: bool)
    | Publish(channel: string, revision: string, invalidate: bool)
    | Block(channel: string)
    | ApplyProfile(profile: nat)
    | Close
    | StopSession(id: nat)                  // stop called on a detached session
    | TakeStatus(id: nat, status: Status)   // finishStatus
    | SelfStop(id: nat)                     // stop in the deferred block
    | OnIdle(id: nat)                       // removeSession
    | OnFinish(id: nat)                     // rememberFinish

  function EpochOf(s: State, channel: string): nat {
    if channel in s.epochs then s.epochs[channel] else 0
  }

  predicate Blank(text: string) {
    forall i :: 0 <= i < |text| ==> IsSpace(text[i])
  }

  /** retireSession for a set of channels. */
  function Retire(s: State, channels: set<string>): State {
    s.(sessions := s.sessions - channels, sticky := s.sticky - channels,
       epochs := map c | c in s.epochs.Keys + channels :: EpochOf(s, c) + if c in channels then 1 else 0)
  }

  /** startSession: a fresh session under a fresh epoch. */
  function Start(s: State, channel: string, transcode: bool): State {
    var id := |s.created|;
    var session := Session(id, channel, EpochOf(s, channel) + 1, transcode);
    s.(sticky := s.sticky - {channel}, epochs := s.epochs[channel := session.epoch],
       sessions := s.sessions[channel := session],
       created := s.created[id := session], phase := s.phase[id := Running])
  }

  datatype Verdict = Attached | ErrClosed | ErrBlocked | ErrStale

  function Admission(s: State, e: Event): Verdict
    requires e.Subscribe?
  {
    if s.closed then ErrClosed
    else if e.channel in s.blocked then ErrBlocked
    else if e.channel in s.revisions && e.revision != "" && s.revisions[e.channel] != e.revision then ErrStale
    else Attached
  }

  /** A mapped session that a subscriber can share. */
  predicate Shareable(s: State, channel: string, transcode: bool) {
    channel in s.sessions && s.sessions[channel].id !in s.stopped && s.sessions[channel].transcode == transcode
  }

  /** A channel's session is replaced: a live one is retired first, a stopped one dropped. */
  function Restart(s: State, channel: string, transcode: bool): State {
    if channel in s.sessions && s.sessions[channel].id !in s.stopped
    then Start(Retire(s, {channel}), channel, transcode)
    else Start(s.(sessions := s.sessions - {channel}), channel, transcode)
  }

  function Revised(s: State, channel: string, revision: string): State {
    if revision != "" then s.(revisions := s.revisions[channel := revision]) else s
  }

  function Subscribed(s: State, e: Event): State
    requires e.Subscribe?
  {
    if Admission(s, e) != Attached then s
    else if Shareable(s, e.channel, e.transcode) then Revised(s, e.channel, e.revision)
    else Restart(Revised(s, e.channel, e.revision), e.channel, e.transcode)
  }

  function Transcoded(s: State): set<string> {
    set c | c in s.sessions && s.sessions[c].transcode
  }

  /** rememberFinish, with both of its guards. */
  function Remember(s: State, session: Session, status: Status): State {
    if EpochOf(s, session.channel) != session.epoch || session.channel in s.sessions then s
    else if status.isError && !Blank(status.lastError) then
      s.(sticky := s.sticky[session.channel := status.(channel := session.channel, viewers := 0)])
    else s.(sticky := s.sticky - {session.channel})
  }

  predicate Enabled(s: State, e: Event) {
    match e
    case StopSession(id) => id in s.created
    case TakeStatus(id, _) => id in s.created && id in s.phase && s.phase[id].Running?
    case SelfStop(id) => id in s.created && id in s.phase && s.phase[id].StatusTaken?
    case OnIdle(id) => id in s.created && id in s.phase && s.phase[id].Stopping?
    case OnFinish(id) => id in s.created && id in s.phase && s.phase[id].Removed?
    case _ => true
  }

  function Apply(s: State, e: Event): State
    requires Enabled(s, e)
  {
    match e
    case Subscribe(_, _, _) => Subscribed(s, e)
    case Publish(c, revision, invalidate) =>
      var s1 := s.(blocked := s.blocked - {c},
                   revisions := if revision != "" then s.revisions[c := revision] else s.revisions);
      if invalidate then Retire(s1, {c}) else s1
    case Block(c) => Retire(s.(blocked := s.blocked + {c}, revisions := s.revisions - {c}), {c})
    case ApplyProfile(profile) => Retire(s.(profile := profile), Transcoded(s))
    case Close => Retire(s.(closed := true), s.sessions.Keys)
    case StopSession(id) => s.(stopped := s.stopped + {id})
    case TakeStatus(id, status) => s.(phase := s.phase[id := StatusTaken(status)])
    case SelfStop(id) => s.(stopped := s.stopped + {id}, phase := s.phase[id := Stopping(s.phase[id].status)])
    case OnIdle(id) =>
      var c := s.created[id].channel;
      var s1 := s.(phase := s.phase[id := Removed(s.phase[id].status)]);
      if c in s.sessions && s.sessions[c] == s.created[id] then s1.(sessions := s.sessions - {c}) else s1
    case OnFinish(id) =>
      Remember(s.(phase := s.phase[id := Done(s.phase[id].status)]), s.created[id], s.phase[id].status)
  }

  function Init(profile: nat): State {
    State(map[], map[], {}, map[], map[], profile, false, map[], {}, map[])
  }

  predicate IsRun(s: State, es: seq<Event>)
    decreases |es|
  {
    es == [] || (Enabled(s, es[0]) && IsRun(Apply(s, es[0]), es[1..]))
  }

  function Run(s: State, es: seq<Event>): State
    requires IsRun(s, es)
    decreases |es|
  {
    if es == [] then s else Run(Apply(s, es[0]), es[1..])
  }
}
