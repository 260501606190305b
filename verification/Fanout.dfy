/** Every run of the fan-out keeps the no-gaps invariant. */
module Fanout {
  import opened Seqs
  import opened MpegTs
  import opened FanoutModel

  // ---------------------------------------------------------------- tables

  lemma {:induction false} TablesArePackets(p: Bytes)
    requires TablesOnly(p)
    ensures IsPackets(p)
    decreases |p|
  {
    if p != [] {
      TablesArePackets(p[PACKET_SIZE..]);
    }
  }

  lemma {:induction false} TablesConcat(a: Bytes, b: Bytes)
    requires TablesOnly(a) && TablesOnly(b)
    ensures TablesOnly(a + b)
    decreases |a|
  {
    if a == [] {
      assert a + b == b;
    } else {
      assert (a + b)[..PACKET_SIZE] == a[..PACKET_SIZE];
      assert (a + b)[PACKET_SIZE..] == a[PACKET_SIZE..] + b;
      TablesConcat(a[PACKET_SIZE..], b);
    }
  }

  lemma OneTable(pkt: Bytes)
    requires IsTablePacket(pkt)
    ensures TablesOnly(pkt)
  {
    assert pkt[..PACKET_SIZE] == pkt && pkt[PACKET_SIZE..] == [];
  }

  lemma {:induction false} PmtsAreTables(order: seq<nat>, pmts: map<nat, Bytes>)
    requires forall pid :: pid in order ==> pid in pmts
    requires forall pid :: pid in pmts ==> IsTablePacket(pmts[pid])
    ensures TablesOnly(PmtBytes(order, pmts))
  {
    if order != [] {
      assert order[0] in order;
      OneTable(pmts[order[0]]);
      PmtsAreTables(order[1..], pmts);
      TablesConcat(pmts[order[0]], PmtBytes(order[1..], pmts));
    }
  }

  /** What a viewer is started with is PAT and PMT packets only. */
  lemma StartupIsTables(t: Tables, out: Bytes)
    requires TablesInv(t) && IsStartup(t, out)
    ensures TablesOnly(out)
  {
    var order: seq<nat> :|
      multiset(order) == multiset(t.pmts.Keys)
      && (forall pid :: pid in order ==> pid in t.pmts)
      && out == t.pat + PmtBytes(order, t.pmts);
    PmtsAreTables(order, t.pmts);
    if t.pat == [] {
      assert out == PmtBytes(order, t.pmts);
    } else {
      OneTable(t.pat);
      TablesConcat(t.pat, PmtBytes(order, t.pmts));
    }
  }

  lemma ObservedKeepsTables(t: Tables, pkt: Bytes)
    requires TablesInv(t)
    ensures TablesInv(Observed(t, pkt))
  {
    hide HasPmtTable, HasRandomAccess, HasPusi;
    var t' := Observed(t, pkt);
    forall pid | pid in t'.pmts ensures IsTablePacket(t'.pmts[pid]) {
      if pid in t.pmts && t'.pmts[pid] == t.pmts[pid] {
        assert IsTablePacket(t.pmts[pid]);
      }
    }
  }

  // ---------------------------------------------------------------- keyframes

  lemma {:induction false} KeyframeScan(chunk: Bytes, i: nat)
    requires i <= |chunk| && |chunk| % PACKET_SIZE == 0 && i % PACKET_SIZE == 0
    ensures var k := KeyframeAt(chunk, i);
            k % PACKET_SIZE == 0 && NoKeyframe(chunk, i, k)
            && (k < |chunk| ==> KeyframeIn(chunk, k))
    decreases |chunk| - i
  {
    if i + PACKET_SIZE <= |chunk| && !HasRandomAccess(chunk[i..i + PACKET_SIZE]) {
      KeyframeScan(chunk, i + PACKET_SIZE);
    }
  }

  lemma KeyframeShift(log: Bytes, chunk: Bytes, p: nat)
    ensures KeyframeIn(chunk, p) == KeyframeIn(log + chunk, |log| + p)
    ensures p + PACKET_SIZE <= |log| ==> KeyframeIn(log, p) == KeyframeIn(log + chunk, p)
  {
    if p + PACKET_SIZE <= |chunk| {
      assert (log + chunk)[|log| + p..|log| + p + PACKET_SIZE] == chunk[p..p + PACKET_SIZE];
    }
    if p + PACKET_SIZE <= |log| {
      assert (log + chunk)[p..p + PACKET_SIZE] == log[p..p + PACKET_SIZE];
    }
  }

  /** A keyframe-free stretch stays so when the log grows. */
  lemma NoKeyframeKept(log: Bytes, chunk: Bytes, from: nat, to: nat)
    requires |log| % PACKET_SIZE == 0 && to <= |log|
    requires NoKeyframe(log, from, to)
    ensures NoKeyframe(log + chunk, from, to)
  {
    hide KeyframeIn;
    forall p: nat | from <= p < to && p % PACKET_SIZE == 0
      ensures !KeyframeIn(log + chunk, p)
    {
      KeyframeShift(log, chunk, p);
      assert !KeyframeIn(log, p);
    }
  }

  /** A keyframe-free log tail is extended by a keyframe-free start of the chunk. */
  lemma NoKeyframeExtended(log: Bytes, chunk: Bytes, from: nat, k: nat)
    requires |log| % PACKET_SIZE == 0 && from <= |log|
    requires NoKeyframe(log, from, |log|) && NoKeyframe(chunk, 0, k)
    ensures NoKeyframe(log + chunk, from, |log| + k)
  {
    hide KeyframeIn;
    NoKeyframeKept(log, chunk, from, |log|);
    forall p: nat | |log| <= p < |log| + k && p % PACKET_SIZE == 0
      ensures !KeyframeIn(log + chunk, p)
    {
      KeyframeShift(log, chunk, p - |log|);
      assert (p - |log|) % PACKET_SIZE == 0;
    }
  }

  // ---------------------------------------------------------------- one viewer

  lemma SliceGrows(log: Bytes, chunk: Bytes, from: nat)
    requires from <= |log|
    ensures (log + chunk)[from..|log| + |chunk|] == log[from..|log|] + chunk
  {
  }

  lemma WholeSum(a: nat, b: nat)
    requires a % PACKET_SIZE == 0 && b % PACKET_SIZE == 0
    ensures (a + b) % PACKET_SIZE == 0
  {
  }

  /** Growing the log does not touch what a viewer already got. */
  lemma GrowKeeps(v: View, log: Bytes, chunk: Bytes)
    requires |log| % PACKET_SIZE == 0
    requires ContentInv(v, log) && StartInv(v, log)
    ensures ContentInv(v, log + chunk) && StartInv(v, log + chunk)
  {
    hide NoKeyframe, KeyframeIn, TablesOnly, Flatten;
    if v.late {
      NoKeyframeKept(log, chunk, v.joined, v.start);
      KeyframeShift(log, chunk, v.start);
      if !v.waitKeyframe {
        KeyframeFits(log, v.start);
      }
    }
    assert (log + chunk)[v.start..v.stop] == log[v.start..v.stop];
  }

  lemma KeyframeFits(log: Bytes, p: nat)
    requires KeyframeIn(log, p)
    ensures p + PACKET_SIZE <= |log|
  {
  }

  /** A live viewer gets the whole chunk, or is dropped with what it has. */
  lemma DeliverLive(v: View, log: Bytes, chunk: Bytes, startup: Bytes)
    requires |log| % PACKET_SIZE == 0 && |chunk| % PACKET_SIZE == 0
    requires ViewInv(v, log, true) && !v.waitKeyframe
    ensures var v' := Deliver(v, chunk, |log|, startup); ViewInv(v', log + chunk, !v'.closed)
  {
    hide NoKeyframe, KeyframeIn, TablesOnly, Flatten;
    GrowKeeps(v, log, chunk);
    WholeSum(|log|, |chunk|);
    var v' := Deliver(v, chunk, |log|, startup);
    if !v'.closed {
      FlattenSnoc(v.sent, chunk);
      SliceGrows(log, chunk, v.start);
      Assoc(v.prefix, log[v.start..|log|], chunk);
    }
  }

  /** The run a waiting viewer's stretch becomes, with or without a keyframe at k. */
  lemma WaitEnds(v: View, log: Bytes, chunk: Bytes, k: nat)
    requires |log| % PACKET_SIZE == 0 && |chunk| % PACKET_SIZE == 0
    requires StartInv(v, log) && v.waitKeyframe && v.joined <= v.start == |log|
    requires k == KeyframeAt(chunk, 0)
    ensures k % PACKET_SIZE == 0 && (|log| + k) % PACKET_SIZE == 0
    ensures NoKeyframe(log + chunk, v.joined, |log| + k)
    ensures k < |chunk| ==> KeyframeIn(log + chunk, |log| + k)
    ensures (log + chunk)[|log| + k..|log| + |chunk|] == chunk[k..]
  {
    hide NoKeyframe, KeyframeIn, KeyframeAt, StartInv;
    StartFacts(v, log);
    KeyframeScan(chunk, 0);
    NoKeyframeExtended(log, chunk, v.joined, k);
    KeyframeShift(log, chunk, k);
    WholeSum(|log|, k);
    SliceShift(log, chunk, k);
  }

  lemma StartFacts(v: View, log: Bytes)
    requires StartInv(v, log) && v.waitKeyframe
    ensures NoKeyframe(log, v.joined, v.start)
  {
  }

  lemma SliceShift(log: Bytes, chunk: Bytes, k: nat)
    requires k <= |chunk|
    ensures (log + chunk)[|log| + k..|log| + |chunk|] == chunk[k..]
  {
  }

  /** A waiting viewer gets nothing from a chunk without a keyframe. */
  lemma DeliverNothing(v: View, log: Bytes, chunk: Bytes, startup: Bytes)
    requires |log| % PACKET_SIZE == 0 && |chunk| % PACKET_SIZE == 0
    requires ViewInv(v, log, true) && v.waitKeyframe && KeyframeAt(chunk, 0) == |chunk|
    ensures ViewInv(Deliver(v, chunk, |log|, startup), log + chunk, true)
  {
    hide NoKeyframe, KeyframeIn, TablesOnly, Flatten, KeyframeAt;
    WaitEnds(v, log, chunk, |chunk|);
    var stop := |log| + |chunk|;
    assert log[v.start..v.stop] == [] == (log + chunk)[stop..stop];
  }

  /** At a keyframe a waiting viewer gets the tables and the chunk from that packet on. */
  lemma DeliverFirst(v: View, log: Bytes, chunk: Bytes, startup: Bytes)
    requires |log| % PACKET_SIZE == 0 && |chunk| % PACKET_SIZE == 0
    requires ViewInv(v, log, true) && v.waitKeyframe && KeyframeAt(chunk, 0) < |chunk|
    requires TablesOnly(startup)
    ensures ViewInv(Deliver(v, chunk, |log|, startup), log + chunk, true)
  {
    hide NoKeyframe, KeyframeIn, TablesOnly, Flatten, KeyframeAt;
    var k := KeyframeAt(chunk, 0);
    WaitEnds(v, log, chunk, k);
    WholeSum(|log|, |chunk|);
    var out := startup + chunk[k..];
    FlattenOne(out);
    assert v.sent + [out] == [out] && v.queue + [out] == [out] == [out][0..];
  }

  lemma JoinKeeps(s: State, cap: nat, startup: Bytes)
    requires Inv(s) && 1 <= cap && TablesOnly(startup)
    ensures ViewInv(Joined(s, cap, startup), s.log, true)
  {
    var v := Joined(s, cap, startup);
    assert s.log[v.start..v.stop] == [];
    if v.sent != [] {
      assert [startup][1..] == [];
    }
  }

  // ---------------------------------------------------------------- steps and runs

  lemma BroadcastOne(t: Tables, log: Bytes, v: View, isAttached: bool, chunk: Bytes, startup: Bytes)
    requires TablesInv(t) && IsStartup(t, startup) && ViewInv(v, log, isAttached)
    requires |log| % PACKET_SIZE == 0 && |chunk| % PACKET_SIZE == 0
    ensures var v' := if isAttached then Deliver(v, chunk, |log|, startup) else v;
            ViewInv(v', log + chunk, isAttached && !v'.closed)
  {
    hide *;
    if !isAttached {
      Detached(v, log, chunk);
    } else {
      StartupIsTables(t, startup);
      if !v.waitKeyframe {
        DeliverLive(v, log, chunk, startup);
      } else if KeyframeAt(chunk, 0) == |chunk| {
        DeliverNothing(v, log, chunk, startup);
        StaysOpen(v, log, chunk, startup);
      } else {
        DeliverFirst(v, log, chunk, startup);
        StaysOpen(v, log, chunk, startup);
      }
    }
  }

  lemma Detached(v: View, log: Bytes, chunk: Bytes)
    requires |log| % PACKET_SIZE == 0 && ViewInv(v, log, false)
    ensures ViewInv(v, log + chunk, false)
  {
    hide ContentInv, StartInv;
    assert ContentInv(v, log) && StartInv(v, log);
    GrowKeeps(v, log, chunk);
  }

  /** A viewer still waiting for a keyframe is never dropped as slow. */
  lemma StaysOpen(v: View, log: Bytes, chunk: Bytes, startup: Bytes)
    requires ViewInv(v, log, true) && v.waitKeyframe
    ensures !Deliver(v, chunk, |log|, startup).closed
  {
  }

  lemma BroadcastKeeps(s: State, chunk: Bytes, startups: map<nat, Bytes>)
    requires Inv(s) && Enabled(s, Broadcast(chunk, startups))
    ensures Inv(Apply(s, Broadcast(chunk, startups)))
  {
    hide ViewInv, IsPackets, TablesInv, Deliver, IsStartup;
    var s' := Apply(s, Broadcast(chunk, startups));
    PacketsConcat(s.log, chunk);
    PacketsFlat(chunk);
    WholeSum(|s.log|, |chunk|);
    forall id | id in s'.views
      ensures ViewInv(s'.views[id], s'.log, id in s'.attached)
    {
      if id in s.attached {
        BroadcastOne(s.tables, s.log, s.views[id], true, chunk, startups[id]);
      } else {
        Detached(s.views[id], s.log, chunk);
      }
    }
  }

  lemma QuietStepKeeps(s: State, e: Event)
    requires Inv(s) && Enabled(s, e) && !e.Broadcast? && !e.Join? && !e.Observe?
    ensures Inv(Apply(s, e))
  {
    hide NoKeyframe, KeyframeIn, TablesOnly, Flatten;
  }

  /** Every step of every kind keeps the invariant. */
  lemma StepKeeps(s: State, e: Event)
    requires Inv(s) && Enabled(s, e)
    ensures Inv(Apply(s, e))
  {
    match e
    case Broadcast(chunk, startups) => BroadcastKeeps(s, chunk, startups);
    case Join(cap, startup) =>
      StartupIsTables(s.tables, startup);
      JoinKeeps(s, cap, startup);
      hide ViewInv, Joined;
    case Observe(pkt) =>
      ObservedKeepsTables(s.tables, pkt);
      hide ViewInv, Observed;
    case _ => QuietStepKeeps(s, e);
  }

  /** No gaps, whole packets: the invariant holds after every run, whatever the interleaving
      of joins, leaves, broadcasts, upstream changes, reads and stop. */
  lemma {:induction false} RunKeeps(s: State, es: seq<Event>)
    requires Inv(s) && IsRun(s, es)
    ensures Inv(Run(s, es))
    decreases |es|
  {
    if es != [] {
      StepKeeps(s, es[0]);
      RunKeeps(Apply(s, es[0]), es[1..]);
    }
  }

  // ---------------------------------------------------------------- what a viewer sees

  /** The bytes of the chunks broadcast in a run, in order. */
  function Broadcasts(es: seq<Event>): Bytes {
    if es == [] then []
    else (if es[0].Broadcast? then es[0].chunk else []) + Broadcasts(es[1..])
  }

  lemma {:induction false} LogIsBroadcasts(s: State, es: seq<Event>)
    requires IsRun(s, es)
    ensures Run(s, es).log == s.log + Broadcasts(es)
    decreases |es|
  {
    if es != [] {
      var s' := Apply(s, es[0]);
      LogIsBroadcasts(s', es[1..]);
      LogStep(s, es[0]);
      Assoc(s.log, if es[0].Broadcast? then es[0].chunk else [], Broadcasts(es[1..]));
    }
  }

  lemma LogStep(s: State, e: Event)
    requires Enabled(s, e)
    ensures Apply(s, e).log == s.log + if e.Broadcast? then e.chunk else []
  {
    assert s.log + [] == s.log;
  }

  /** A new session has broadcast nothing and has no viewer. */
  lemma InitInv(transcode: bool)
    ensures Inv(Init(transcode))
  {
  }

  /** The headline: after any run, whatever was queued to a viewer is whole 188-byte packets,
      namely PAT/PMT packets followed by one contiguous run of the broadcast log, which
      begins at its join point or, for a late viewer, at the first keyframe after it. */
  lemma DeliveryIsContiguous(transcode: bool, es: seq<Event>, id: nat)
    requires IsRun(Init(transcode), es) && id in Run(Init(transcode), es).views
    ensures var s := Run(Init(transcode), es); var v := s.views[id];
            s.log == Broadcasts(es) && s.bytesSent == |Broadcasts(es)|
            && ContentInv(v, Broadcasts(es)) && StartInv(v, Broadcasts(es))
            && IsPackets(Flatten(v.sent))
            && (id in s.attached ==> v.stop == |Broadcasts(es)|)
  {
    hide ContentInv, StartInv, TablesInv, ChannelInv;
    InitInv(transcode);
    RunKeeps(Init(transcode), es);
    LogIsBroadcasts(Init(transcode), es);
    assert [] + Broadcasts(es) == Broadcasts(es);
    var s := Run(Init(transcode), es);
    assert ViewInv(s.views[id], s.log, id in s.attached);
    QueuedIsPackets(s.views[id], s.log);
  }

  lemma QueuedIsPackets(v: View, log: Bytes)
    requires IsPackets(log) && ContentInv(v, log)
    ensures IsPackets(Flatten(v.sent))
  {
    TablesArePackets(v.prefix);
    PacketsCut(log, v.stop);
    PacketsCut(log[..v.stop], v.start);
    assert log[..v.stop][v.start..] == log[v.start..v.stop];
    PacketsConcat(v.prefix, log[v.start..v.stop]);
  }

  /** What can happen to a viewer in one step: its history only grows, a detached viewer is
      final, and it is detached only by leaving, by stop, or by a full channel. */
  lemma ViewerStep(s: State, e: Event, id: nat)
    requires Inv(s) && Enabled(s, e) && id in s.views
    ensures var s' := Apply(s, e);
            id in s'.views
            && s'.views[id].joined == s.views[id].joined
            && s.views[id].sent <= s'.views[id].sent
            && (id !in s.attached ==>
                  id !in s'.attached && s'.views[id].sent == s.views[id].sent && s'.views[id].stop == s.views[id].stop)
            && (id in s.attached && id !in s'.attached ==>
                  e == Leave(id) || e == Stop
                  || (e.Broadcast? && !s.views[id].waitKeyframe && |s.views[id].queue| == s.views[id].cap))
  {
    hide ContentInv, StartInv, Deliver, IsStartup, Observed, IsPackets, TablesInv;
    var v := s.views[id];
    assert ViewInv(v, s.log, id in s.attached);
    if e.Broadcast? && id in s.attached {
      DeliverHistory(v, s.log, e.chunk, e.startups[id]);
    }
  }

  lemma DeliverHistory(v: View, log: Bytes, chunk: Bytes, startup: Bytes)
    requires ViewInv(v, log, true)
    ensures var v' := Deliver(v, chunk, |log|, startup);
            v'.joined == v.joined && v.sent <= v'.sent
            && (v'.closed ==> !v.waitKeyframe && |v.queue| == v.cap)
  {
    hide KeyframeAt, TablesOnly, NoKeyframe, KeyframeIn;
  }

  // ---------------------------------------------------------------- joins that lose against stop

  /** The step detaches the viewer: it leaves, the session stops, or its channel is full. */
  predicate Detaches(s: State, e: Event, id: nat)
    requires id in s.views
  {
    e == Leave(id) || (e.Stop? && !s.stopped)
    || (e.Broadcast? && !s.views[id].waitKeyframe && |s.views[id].queue| == s.views[id].cap)
  }

  lemma DetachedExactly(s: State, e: Event, id: nat)
    requires Inv(s) && Enabled(s, e) && id in s.attached
    ensures id in Apply(s, e).views
    ensures id !in Apply(s, e).attached <==> Detaches(s, e, id)
  {
    hide ContentInv, StartInv, IsStartup, Observed, IsPackets, TablesInv;
    assert ViewInv(s.views[id], s.log, id in s.attached);
    if e.Broadcast? {
      DroppedExactly(s.views[id], s.log, e.chunk, e.startups[id]);
    }
    hide Deliver;
  }

  lemma DroppedExactly(v: View, log: Bytes, chunk: Bytes, startup: Bytes)
    requires ViewInv(v, log, true)
    ensures Deliver(v, chunk, |log|, startup).closed <==> !v.waitKeyframe && |v.queue| == v.cap
  {
    hide KeyframeAt, TablesOnly, NoKeyframe, KeyframeIn;
  }

  /** An id given out stays detached once it is. */
  lemma StaysDetached(s: State, e: Event, id: nat)
    requires Enabled(s, e) && id <= s.nextId && id !in s.attached
    ensures id <= Apply(s, e).nextId && id !in Apply(s, e).attached
  {
    hide Deliver, IsStartup, Observed, Joined;
  }

  lemma {:induction false} DetachedForEver(s: State, es: seq<Event>, id: nat)
    requires IsRun(s, es) && id <= s.nextId && id !in s.attached
    ensures id !in Run(s, es).attached
    decreases |es|
  {
    hide Apply, Enabled;
    if es != [] {
      StaysDetached(s, es[0], id);
      DetachedForEver(Apply(s, es[0]), es[1..], id);
    }
  }

  /** No step of the run detaches the viewer. */
  ghost predicate NeverDetached(s: State, es: seq<Event>, id: nat)
    requires IsRun(s, es)
    decreases |es|
  {
    id in s.views && (es != [] ==> !Detaches(s, es[0], id) && NeverDetached(Apply(s, es[0]), es[1..], id))
  }

  lemma {:induction false} AttachedExactly(s: State, es: seq<Event>, id: nat)
    requires Inv(s) && IsRun(s, es) && id in s.attached
    ensures id in Run(s, es).attached <==> NeverDetached(s, es, id)
    decreases |es|
  {
    assert id in s.views && id <= s.nextId by {
      hide ViewInv, TablesInv, IsPackets;
    }
    hide Apply, Enabled, Inv, Detaches;
    if es != [] {
      StepKeeps(s, es[0]);
      DetachedExactly(s, es[0], id);
      if Detaches(s, es[0], id) {
        KnownId(Apply(s, es[0]), id);
        DetachedForEver(Apply(s, es[0]), es[1..], id);
      } else {
        AttachedExactly(Apply(s, es[0]), es[1..], id);
      }
    }
  }

  lemma KnownId(s: State, id: nat)
    requires Inv(s) && id in s.views
    ensures 1 <= id <= s.nextId
  {
    hide ViewInv, TablesInv, IsPackets;
  }

  /** The run has the viewer join a session already stopped, and never detaches it. */
  ghost predicate JoinsAfterStop(s: State, es: seq<Event>, id: nat)
    requires IsRun(s, es)
    decreases |es|
  {
    es != []
    && ((es[0].Join? && s.stopped && id == s.nextId + 1 && NeverDetached(Apply(s, es[0]), es[1..], id))
        || JoinsAfterStop(Apply(s, es[0]), es[1..], id))
  }

  lemma {:induction false} JoinsOnce(s: State, es: seq<Event>, id: nat)
    requires IsRun(s, es) && id <= s.nextId
    ensures !JoinsAfterStop(s, es, id)
    decreases |es|
  {
    hide Enabled, NeverDetached;
    if es != [] {
      IdsGrow(s, es[0]);
      hide Apply;
      JoinsOnce(Apply(s, es[0]), es[1..], id);
    }
  }

  lemma IdsGrow(s: State, e: Event)
    requires Enabled(s, e)
    ensures Apply(s, e).nextId == if e.Join? then s.nextId + 1 else s.nextId
    ensures e.Join? ==> s.nextId + 1 in Apply(s, e).attached
    ensures Apply(s, e).stopped == (s.stopped || e.Stop?) && (e.Stop? && !s.stopped ==> Apply(s, e).attached == {})
  {
    hide Deliver, IsStartup, Observed, Joined;
  }

  /** A viewer that joined before the stop is not attached after it. */
  lemma {:induction false} StopDetaches(s: State, es: seq<Event>, id: nat)
    requires IsRun(s, es) && id <= s.nextId && !s.stopped && Run(s, es).stopped
    ensures id !in Run(s, es).attached
    decreases |es|
  {
    hide Enabled;
    if es != [] {
      IdsGrow(s, es[0]);
      hide Apply;
      if es[0].Stop? {
        DetachedForEver(Apply(s, es[0]), es[1..], id);
      } else {
        StopDetaches(Apply(s, es[0]), es[1..], id);
      }
    }
  }

  lemma {:induction false} AttachedWhenStopped(s: State, es: seq<Event>, id: nat)
    requires Inv(s) && IsRun(s, es) && s.nextId < id && id !in s.attached && Run(s, es).stopped
    ensures id in Run(s, es).attached <==> JoinsAfterStop(s, es, id)
    decreases |es|
  {
    hide Enabled, Inv, NeverDetached;
    if es != [] {
      var s' := Apply(s, es[0]);
      IdsGrow(s, es[0]);
      StepKeeps(s, es[0]);
      if !(es[0].Join? && id == s.nextId + 1) {
        NotYet(s, es[0], id);
      }
      hide Apply;
      if es[0].Join? && id == s.nextId + 1 {
        JoinsOnce(s', es[1..], id);
        if s.stopped {
          AttachedExactly(s', es[1..], id);
        } else {
          StopDetaches(s', es[1..], id);
        }
      } else {
        AttachedWhenStopped(s', es[1..], id);
      }
    }
  }

  lemma NotYet(s: State, e: Event, id: nat)
    requires Enabled(s, e) && s.nextId < id && id !in s.attached && !(e.Join? && id == s.nextId + 1)
    ensures id !in Apply(s, e).attached
  {
    hide Deliver, IsStartup, Observed, Joined;
  }

  /** In a stopped session the viewers still attached are exactly those whose join lost the
      race with stop and that neither left nor were dropped since: stop closes all others,
      and nothing else ever closes these. */
  lemma AttachedAfterStopExactly(transcode: bool, es: seq<Event>, id: nat)
    requires IsRun(Init(transcode), es) && Run(Init(transcode), es).stopped
    ensures id in Run(Init(transcode), es).attached <==> JoinsAfterStop(Init(transcode), es, id)
  {
    InitInv(transcode);
    hide Inv, IsRun, Run, JoinsAfterStop;
    if id == 0 {
      DetachedForEver(Init(transcode), es, id);
      JoinsOnce(Init(transcode), es, id);
    } else {
      AttachedWhenStopped(Init(transcode), es, id);
    }
  }

  /** There are such viewers: a join that lost the race stays open, even through a second stop. */
  lemma JoinAfterStopStaysOpen()
    ensures IsRun(Init(false), [Stop, Join(8, []), Stop])
    ensures Run(Init(false), [Stop, Join(8, []), Stop]).stopped && 1 in Run(Init(false), [Stop, Join(8, []), Stop]).attached
  {
    var es := [Stop, Join(8, []), Stop];
    var s0 := Init(false);
    var s1 := Apply(s0, Stop);
    assert PmtBytes([], map[]) == [] && multiset([]) == multiset(s1.tables.pmts.Keys);
    assert IsStartup(s1.tables, []);
    var s2 := Apply(s1, Join(8, []));
    assert es[1..] == [Join(8, []), Stop] && es[1..][1..] == [Stop] && [Stop][1..] == [];
    assert Run(s2, [Stop]) == s2;
  }

  /** What a reader has received is a prefix of what was queued, and all of it once the
      channel is drained. */
  lemma ReceivedIsPrefix(v: View, isAttached: bool)
    requires ChannelInv(v, isAttached)
    ensures Flatten(v.sent[..v.taken]) + Flatten(v.queue) == Flatten(v.sent)
  {
    FlattenConcat(v.sent[..v.taken], v.queue);
    assert v.sent[..v.taken] + v.queue == v.sent;
  }
}
