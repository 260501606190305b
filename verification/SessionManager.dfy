/** The manager object of internal/core/stream/manager.go: maps updated in place under one
    lock. Every method body is one lock region and one step of ManagerModel. */
module SessionManager {
  import opened Seqs
  import opened M = ManagerModel

  class Manager {
    var sessions: map<string, Session>
    var revisions: map<string, string>
    var blocked: set<string>
    var sticky: map<string, Status>
    var epochs: map<string, nat>
    var profile: nat
    var closed: bool
    var created: map<nat, Session>   // the session objects
    var stopped: set<nat>            // their stopped flags
    ghost var phase: map<nat, Phase>

    ghost function Abs(): State
      reads this
    {
      State(sessions, revisions, blocked, sticky, epochs, profile, closed, created, stopped, phase)
    }

    constructor (profile: nat)
      ensures Abs() == Init(profile)
    {
      sessions, revisions, blocked, sticky, epochs := map[], map[], {}, map[], map[];
      this.profile, closed, created, stopped, phase := profile, false, map[], {}, map[];
    }

    method StartSession(channel: string, transcode: bool) returns (s: Session)
      modifies `sticky, `epochs, `sessions, `created, `phase
      ensures Abs() == Start(old(Abs()), channel, transcode)
      ensures channel in sessions && s == sessions[channel]
    {
      sticky := sticky - {channel};
      var epoch := (if channel in epochs then epochs[channel] else 0) + 1;
      epochs := epochs[channel := epoch];
      s := Session(|created|, channel, epoch, transcode);
      created, phase, sessions := created[s.id := s], phase[s.id := Running], sessions[channel := s];
    }

    method RetireSession(channel: string) returns (s: Option<Session>)
      modifies `sticky, `epochs, `sessions
      ensures Abs() == Retire(old(Abs()), {channel})
      ensures sessions == old(sessions) - {channel}
      ensures s == if channel in old(sessions) then Some(old(sessions)[channel]) else None
    {
      RetireOne(Abs(), channel);
      hide Retire;
      sticky := sticky - {channel};
      epochs := epochs[channel := (if channel in epochs then epochs[channel] else 0) + 1];
      s := None;
      if channel in sessions {
        s := Some(sessions[channel]);
        sessions := sessions - {channel};
      } else {
        assert sessions == sessions - {channel};
      }
    }

    /** Subscribe up to the point where the viewer is added to the session found. */
    method Subscribe(channel: string, revision: string, transcode: bool)
      returns (verdict: Verdict, s: Option<Session>, stale: Option<Session>)
      modifies this
      ensures verdict == Admission(old(Abs()), M.Subscribe(channel, revision, transcode))
      ensures Abs() == Apply(old(Abs()), M.Subscribe(channel, revision, transcode))
      ensures verdict == Attached ==> channel in sessions && s == Some(sessions[channel])
      ensures verdict != Attached ==> s == None && stale == None
      ensures stale == if verdict == Attached && channel in old(sessions) && old(sessions)[channel].id !in old(stopped)
                          && old(sessions)[channel].transcode != transcode
                       then Some(old(sessions)[channel]) else None
    {
      hide Start, Retire;
      stale := None;
      if closed {
        return ErrClosed, None, None;
      }
      if channel in blocked {
        return ErrBlocked, None, None;
      }
      if channel in revisions && revision != "" && revisions[channel] != revision {
        return ErrStale, None, None;
      }
      if revision != "" {
        revisions := revisions[channel := revision];
      }
      var ok := channel in sessions;
      if ok && sessions[channel].id in stopped {
        sessions := sessions - {channel};
        ok := false;
      } else if !ok {
        assert sessions - {channel} == sessions;
      }
      if ok && sessions[channel].transcode != transcode {
        stale := RetireSession(channel);
        ok := false;
      }
      verdict := Attached;
      if !ok {
        var fresh' := StartSession(channel, transcode);
        s := Some(fresh');
      } else {
        s := Some(sessions[channel]);
      }
    }

    method PublishChannel(channel: string, revision: string, invalidate: bool) returns (stale: Option<Session>)
      modifies this
      ensures Abs() == Apply(old(Abs()), Publish(channel, revision, invalidate))
      ensures stale == if invalidate && channel in old(sessions) then Some(old(sessions)[channel]) else None
    {
      blocked := blocked - {channel};
      if revision != "" {
        revisions := revisions[channel := revision];
      }
      stale := None;
      if invalidate {
        stale := RetireSession(channel);
      }
    }

    method BlockChannel(channel: string) returns (stale: Option<Session>)
      modifies this
      ensures Abs() == Apply(old(Abs()), Block(channel))
      ensures stale == if channel in old(sessions) then Some(old(sessions)[channel]) else None
    {
      blocked := blocked + {channel};
      revisions := revisions - {channel};
      stale := RetireSession(channel);
    }

    /** Retiring while ranging over the map: each picked channel once. */
    method RetireAll(channels: set<string>) returns (stale: seq<Session>)
      requires channels <= sessions.Keys
      modifies `sticky, `epochs, `sessions
      ensures Abs() == Retire(old(Abs()), channels)
      ensures forall s :: s in stale <==> exists c :: c in channels && s == old(sessions)[c]
    {
      hide Retire;
      RetireNone(Abs());
      assert channels - channels == {};
      stale := [];
      var todo := channels;
      while todo != {}
        invariant todo <= channels && todo <= sessions.Keys
        invariant Abs() == Retire(old(Abs()), channels - todo)
        invariant forall c :: c in todo ==> sessions[c] == old(sessions)[c]
        invariant forall s :: s in stale <==> exists c :: c in channels - todo && s == old(sessions)[c]
        decreases todo
      {
        var c :| c in todo;
        RetireOneMore(old(Abs()), channels - todo, c);
        var retired := RetireSession(c);
        assert channels - (todo - {c}) == (channels - todo) + {c};
        stale, todo := stale + [retired.value], todo - {c};
      }
      assert channels - {} == channels;
    }

    method ApplyProfile(profile: nat) returns (stale: seq<Session>)
      modifies this
      ensures Abs() == Apply(old(Abs()), M.ApplyProfile(profile))
      ensures forall s :: s in stale <==> exists c :: c in Transcoded(old(Abs())) && s == old(sessions)[c]
    {
      this.profile := profile;
      var picked := set c | c in sessions && sessions[c].transcode;
      stale := RetireAll(picked);
    }

    method Close() returns (stale: seq<Session>)
      modifies this
      ensures Abs() == Apply(old(Abs()), M.Close)
      ensures forall s :: s in stale <==> exists c :: c in old(sessions) && s == old(sessions)[c]
    {
      closed := true;
      stale := RetireAll(sessions.Keys);
    }

    method RemoveSession(target: Session)
      modifies `sessions
      ensures sessions == if target.channel in old(sessions) && old(sessions)[target.channel] == target
                          then old(sessions) - {target.channel} else old(sessions)
    {
      if target.channel in sessions && sessions[target.channel] == target {
        sessions := sessions - {target.channel};
      }
    }

    method RememberFinish(s: Session, status: Status)
      modifies `sticky
      ensures Abs() == Remember(old(Abs()), s, status)
    {
      if (if s.channel in epochs then epochs[s.channel] else 0) != s.epoch {
        return;
      }
      if s.channel in sessions {
        return;
      }
      if status.isError && !Blank(status.lastError) {
        sticky := sticky[s.channel := status.(channel := s.channel, viewers := 0)];
        return;
      }
      sticky := sticky - {s.channel};
    }

    /** The deferred block of run, each region on its own step. */
    method SelfStop(id: nat)
      requires Enabled(Abs(), M.SelfStop(id))
      modifies this
      ensures Abs() == Apply(old(Abs()), M.SelfStop(id))
    {
      stopped := stopped + {id};
      phase := phase[id := Stopping(phase[id].status)];
    }

    method OnIdle(id: nat)
      requires Enabled(Abs(), M.OnIdle(id))
      modifies this
      ensures Abs() == Apply(old(Abs()), M.OnIdle(id))
    {
      RemoveSession(created[id]);
      phase := phase[id := Removed(phase[id].status)];
    }

    method OnFinish(id: nat, status: Status)
      requires Enabled(Abs(), M.OnFinish(id)) && status == Abs().phase[id].status
      modifies this
      ensures Abs() == Apply(old(Abs()), M.OnFinish(id))
    {
      phase := phase[id := Done(status)];
      RememberFinish(created[id], status);
    }
  }

  lemma RetireOne(s: State, c: string)
    ensures Retire(s, {c})
         == s.(sessions := s.sessions - {c}, sticky := s.sticky - {c}, epochs := s.epochs[c := EpochOf(s, c) + 1])
  {
    var r := Retire(s, {c});
    assert r.epochs == s.epochs[c := EpochOf(s, c) + 1];
  }

  lemma RetireNone(s: State)
    ensures Retire(s, {}) == s
  {
    assert s.sessions - {} == s.sessions && s.sticky - {} == s.sticky;
    assert forall c :: c in s.epochs ==> EpochOf(s, c) == s.epochs[c];
  }

  /** Retiring one by one is retiring at once. */
  lemma RetireOneMore(s: State, channels: set<string>, c: string)
    requires c !in channels
    ensures Retire(Retire(s, channels), {c}) == Retire(s, channels + {c})
  {
    var a, b := Retire(Retire(s, channels), {c}), Retire(s, channels + {c});
    assert a.sessions == b.sessions && a.sticky == b.sticky;
    assert a.epochs.Keys == b.epochs.Keys;
    assert forall d :: d in a.epochs ==> a.epochs[d] == b.epochs[d];
  }
}
