/** What the events of a session say about its viewers: who waits for a keyframe, what a viewer
    is started with, and what one broadcast does to it. */
module FanoutLaws {
  import opened Seqs
  import opened MpegTs
  import opened FanoutModel
  import opened Fanout

  // ---------------------------------------------------------------- what happened so far

  /** An event that shows a whole packet with a sync byte. */
  predicate Shows(e: Event) {
    e.Observe? && |e.pkt| == PACKET_SIZE && e.pkt[0] == SYNC_BYTE
  }

  /** A random-access packet was shown since the upstream was last switched. */
  predicate KeyframeSeen(es: seq<Event>) {
    if es == [] then false
    else
      var n := |es| - 1;
      !es[n].SwitchUpstream? && ((Shows(es[n]) && HasRandomAccess(es[n].pkt)) || KeyframeSeen(es[..n]))
  }

  predicate IsPat(pkt: Bytes)
    requires |pkt| == PACKET_SIZE
  {
    HasPusi(pkt) && Pid(pkt) == 0
  }

  predicate IsPmt(pkt: Bytes, pid: nat)
    requires |pkt| == PACKET_SIZE
  {
    HasPusi(pkt) && Pid(pkt) != 0 && HasPmtTable(pkt) && Pid(pkt) as nat == pid
  }

  /** The last PAT packet shown since the upstream was last switched, if any. */
  function LastPat(es: seq<Event>): Bytes {
    if es == [] then []
    else
      var n := |es| - 1;
      if es[n].SwitchUpstream? then []
      else if Shows(es[n]) && IsPat(es[n].pkt) then es[n].pkt else LastPat(es[..n])
  }

  /** The last packet with that program's map. */
  function LastPmt(es: seq<Event>, pid: nat): Bytes {
    if es == [] then []
    else
      var n := |es| - 1;
      if es[n].SwitchUpstream? then []
      else if Shows(es[n]) && IsPmt(es[n].pkt, pid) then es[n].pkt else LastPmt(es[..n], pid)
  }

  // ---------------------------------------------------------------- runs, from the end

  lemma {:induction false} RunLast(s: State, es: seq<Event>)
    requires es != [] && IsRun(s, es)
    ensures var n := |es| - 1;
            IsRun(s, es[..n]) && Enabled(Run(s, es[..n]), es[n]) && Run(s, es) == Apply(Run(s, es[..n]), es[n])
    decreases |es|
  {
    hide Apply, Enabled;
    var n := |es| - 1;
    if n == 0 {
      assert es[..0] == [];
    } else {
      RunLast(Apply(s, es[0]), es[1..]);
      assert es[1..][..n - 1] == es[..n][1..];
    }
  }

  lemma KeyframeStep(es: seq<Event>)
    requires es != []
    ensures var n := |es| - 1;
            KeyframeSeen(es) <==>
              !es[n].SwitchUpstream? && ((Shows(es[n]) && HasRandomAccess(es[n].pkt)) || KeyframeSeen(es[..n]))
  {
  }

  lemma Observes(t: Tables, pkt: Bytes)
    requires |pkt| == PACKET_SIZE && pkt[0] == SYNC_BYTE
    ensures var t' := Observed(t, pkt);
            (t'.seenRai <==> t.seenRai || HasRandomAccess(pkt))
            && t'.pat == (if IsPat(pkt) then pkt else t.pat)
            && (forall pid: nat :: pid in t'.pmts <==> pid in t.pmts || IsPmt(pkt, pid))
            && forall pid: nat :: pid in t'.pmts ==> t'.pmts[pid] == if IsPmt(pkt, pid) then pkt else t.pmts[pid]
  {
    hide HasRandomAccess, HasPmtTable, HasPusi;
  }

  /** The state tells what the events were. */
  ghost predicate Recalls(transcode: bool, es: seq<Event>, s: State) {
    && s.transcode == transcode && (s.everReady <==> MarkReady in es)
    && (s.tables.seenRai <==> KeyframeSeen(es)) && s.tables.pat == LastPat(es)
    && (forall pid: nat :: pid in s.tables.pmts <==> LastPmt(es, pid) != [])
    && forall pid: nat :: pid in s.tables.pmts ==> s.tables.pmts[pid] == LastPmt(es, pid)
  }

  lemma {:induction false} StateRecalls(transcode: bool, es: seq<Event>)
    requires IsRun(Init(transcode), es)
    ensures Recalls(transcode, es, Run(Init(transcode), es))
    decreases |es|
  {
    hide KeyframeSeen, HasRandomAccess, IsPat, IsPmt, Observed, IsRun, Run, Enabled;
    if es == [] {
      NothingYet(transcode);
    } else {
      var n := |es| - 1;
      RunLast(Init(transcode), es);
      StateRecalls(transcode, es[..n]);
      RecallsStep(transcode, es, Run(Init(transcode), es[..n]));
    }
  }

  lemma NothingYet(transcode: bool)
    ensures Recalls(transcode, [], Init(transcode)) && Run(Init(transcode), []) == Init(transcode)
  {
  }

  lemma RecallsShown(transcode: bool, es: seq<Event>, s: State)
    requires es != [] && Recalls(transcode, es[..|es| - 1], s) && Shows(es[|es| - 1])
    ensures Recalls(transcode, es, s.(tables := Observed(s.tables, es[|es| - 1].pkt)))
  {
    hide KeyframeSeen, HasRandomAccess, IsPat, IsPmt, Observed;
    var n := |es| - 1;
    KeyframeStep(es);
    assert es == es[..n] + [es[n]];
    Observes(s.tables, es[n].pkt);
  }

  lemma RecallsOther(transcode: bool, es: seq<Event>, s: State)
    requires es != [] && Recalls(transcode, es[..|es| - 1], s) && !es[|es| - 1].SwitchUpstream? && !Shows(es[|es| - 1])
    ensures Recalls(transcode, es, s.(everReady := s.everReady || es[|es| - 1].MarkReady?))
  {
    hide KeyframeSeen, HasRandomAccess, IsPat, IsPmt;
    KeyframeStep(es);
    assert es == es[..|es| - 1] + [es[|es| - 1]];
  }

  /** What the events are recalled by. */
  predicate SameMemory(a: State, b: State) {
    a.transcode == b.transcode && a.everReady == b.everReady && a.tables == b.tables
  }

  lemma OtherMemory(s: State, e: Event)
    requires Enabled(s, e) && !e.SwitchUpstream? && !Shows(e)
    ensures SameMemory(Apply(s, e), s.(everReady := s.everReady || e.MarkReady?))
  {
    hide Deliver, Joined, IsStartup, Observed;
    if e.Observe? {
      Unseen(s.tables, e.pkt);
    }
  }

  lemma RecallsStep(transcode: bool, es: seq<Event>, s: State)
    requires es != [] && Recalls(transcode, es[..|es| - 1], s) && Enabled(s, es[|es| - 1])
    ensures Recalls(transcode, es, Apply(s, es[|es| - 1]))
  {
    var n := |es| - 1;
    hide HasRandomAccess, IsPat, IsPmt, Observed, IsStartup, Deliver, Joined;
    if es[n].SwitchUpstream? {
      assert es == es[..n] + [es[n]];
    } else if Shows(es[n]) {
      hide Shows, KeyframeSeen, Recalls;
      RecallsShown(transcode, es, s);
    } else {
      hide Shows, KeyframeSeen, LastPat, LastPmt;
      RecallsOther(transcode, es, s);
      OtherMemory(s, es[n]);
      hide Apply;
    }
  }

  lemma Unseen(t: Tables, pkt: Bytes)
    requires |pkt| != PACKET_SIZE || pkt[0] != SYNC_BYTE
    ensures Observed(t, pkt) == t
  {
  }

  // ---------------------------------------------------------------- joins

  /** A viewer that joins now has to wait for a keyframe. */
  predicate MustWait(transcode: bool, es: seq<Event>) {
    transcode && MarkReady in es && KeyframeSeen(es)
  }

  /** PAT and all program maps, each the last one shown since the upstream was switched. */
  ghost predicate IsTables(es: seq<Event>, out: Bytes) {
    exists order: seq<nat> :: IsTablesIn(es, order, out)
  }

  ghost predicate IsTablesIn(es: seq<Event>, order: seq<nat>, out: Bytes) {
    NoRepeats(order) && (forall pid: nat :: pid in order <==> LastPmt(es, pid) != [])
    && out == LastPat(es) + Flatten(MapsIn(es, order))
  }

  function MapsIn(es: seq<Event>, order: seq<nat>): seq<Bytes> {
    seq(|order|, i requires 0 <= i < |order| => LastPmt(es, order[i]))
  }

  lemma {:induction false} PmtBytesAre(es: seq<Event>, order: seq<nat>, pmts: map<nat, Bytes>)
    requires forall pid :: pid in order ==> pid in pmts && pmts[pid] == LastPmt(es, pid)
    ensures PmtBytes(order, pmts) == Flatten(MapsIn(es, order))
  {
    hide LastPmt;
    if order != [] {
      assert order[0] in order;
      PmtBytesAre(es, order[1..], pmts);
      assert MapsIn(es, order)[1..] == MapsIn(es, order[1..]);
    }
  }

  lemma TwiceCounts(order: seq<nat>, i: nat, j: nat)
    requires i < j < |order| && order[i] == order[j]
    ensures multiset(order)[order[j]] >= 2
  {
    assert order == order[..j] + [order[j]] + order[j + 1..];
    assert order[..j][i] == order[i] && order[i] in order[..j];
    assert multiset(order[..j])[order[j]] >= 1;
  }

  lemma ListsOnce(order: seq<nat>, pids: set<nat>)
    requires multiset(order) == multiset(pids)
    ensures NoRepeats(order) && forall pid :: pid in order <==> pid in pids
  {
    forall pid ensures pid in order <==> pid in pids {
      assert pid in order <==> pid in multiset(order);
    }
    forall i, j | 0 <= i < j < |order| ensures order[i] != order[j] {
      if order[i] == order[j] {
        TwiceCounts(order, i, j);
        assert false;
      }
    }
  }

  lemma StartupIsShown(transcode: bool, es: seq<Event>, s: State, out: Bytes)
    requires Recalls(transcode, es, s) && IsStartup(s.tables, out)
    ensures IsTables(es, out)
  {
    hide LastPmt, LastPat, KeyframeSeen;
    var order: seq<nat> :|
      multiset(order) == multiset(s.tables.pmts.Keys)
      && (forall pid :: pid in order ==> pid in s.tables.pmts)
      && out == s.tables.pat + PmtBytes(order, s.tables.pmts);
    ListsOnce(order, s.tables.pmts.Keys);
    PmtBytesAre(es, order, s.tables.pmts);
    assert IsTablesIn(es, order, out);
  }

  /** The viewer a join makes, said from the events before it: it waits for a keyframe exactly
      when the session transcodes, was ready before, and has seen a keyframe since the upstream
      was last switched. Any other viewer is live at once and first of all gets the tables
      shown since then, if there are any. */
  lemma JoinFollowsEvents(transcode: bool, es: seq<Event>, cap: nat, startup: Bytes)
    requires IsRun(Init(transcode), es) && Enabled(Run(Init(transcode), es), Join(cap, startup))
    ensures var s := Run(Init(transcode), es); var s' := Apply(s, Join(cap, startup)); var v := s'.views[s.nextId + 1];
            s.nextId + 1 !in s.views && s'.attached == s.attached + {s.nextId + 1} && !v.closed && v.cap == cap
            && (v.waitKeyframe <==> MustWait(transcode, es)) && v.late == v.waitKeyframe && v.joined == |Broadcasts(es)|
            && IsTables(es, startup)
            && v.queue == v.sent == if MustWait(transcode, es) || startup == [] then [] else [startup]
  {
    hide ViewInv, TablesInv, IsPackets, KeyframeSeen, IsTables, IsRun, Run, Recalls, LastPat, LastPmt;
    StateRecalls(transcode, es);
    LogIsBroadcasts(Init(transcode), es);
    assert [] + Broadcasts(es) == Broadcasts(es);
    InitInv(transcode);
    RunKeeps(Init(transcode), es);
    var s := Run(Init(transcode), es);
    StartupIsShown(transcode, es, s, startup);
    WaitsAsRecalled(transcode, es, s);
  }

  lemma WaitsAsRecalled(transcode: bool, es: seq<Event>, s: State)
    requires Recalls(transcode, es, s)
    ensures (s.transcode && s.everReady && s.tables.seenRai) <==> MustWait(transcode, es)
  {
    hide KeyframeSeen, LastPat, LastPmt;
  }

  /** What it was made with stays: lateness, join position, and what was queued first. */
  lemma {:induction false} ViewerKeepsItsStart(s: State, es: seq<Event>, id: nat)
    requires Inv(s) && IsRun(s, es) && id in s.views
    ensures id in Run(s, es).views
    ensures var v, v' := s.views[id], Run(s, es).views[id]; v'.late == v.late && v'.joined == v.joined && v.sent <= v'.sent
    decreases |es|
  {
    hide Apply, Enabled, Inv;
    if es != [] {
      ViewerStep(s, es[0], id);
      LateStays(s, es[0], id);
      StepKeeps(s, es[0]);
      ViewerKeepsItsStart(Apply(s, es[0]), es[1..], id);
    }
  }

  lemma DeliverLate(v: View, chunk: Bytes, pos: nat, startup: Bytes)
    ensures Deliver(v, chunk, pos, startup).late == v.late
  {
    hide KeyframeAt;
  }

  lemma LateStays(s: State, e: Event, id: nat)
    requires Inv(s) && Enabled(s, e) && id in s.views
    ensures id in Apply(s, e).views && Apply(s, e).views[id].late == s.views[id].late
  {
    if e.Broadcast? && id in e.startups {
      DeliverLate(s.views[id], e.chunk, |s.log|, e.startups[id]);
    }
    hide ViewInv, IsStartup, Observed, IsPackets, TablesInv, Deliver, Joined;
  }

  // ---------------------------------------------------------------- broadcasts

  /** A broadcast and one attached viewer. Live: the whole chunk is queued, or the viewer is
      dropped when its channel is full. Waiting: nothing, until a chunk has a random-access
      packet; then the tables and the chunk from its first such packet on. */
  lemma BroadcastDelivers(s: State, chunk: Bytes, startups: map<nat, Bytes>, id: nat)
    requires Inv(s) && Enabled(s, Broadcast(chunk, startups)) && id in s.attached
    ensures var s' := Apply(s, Broadcast(chunk, startups)); var v, v' := s.views[id], s'.views[id];
            (!v.waitKeyframe && |v.queue| < v.cap ==>
               id in s'.attached && v'.sent == v.sent + [chunk] && v'.queue == v.queue + [chunk] && !v'.waitKeyframe)
            && (!v.waitKeyframe && |v.queue| == v.cap ==> id !in s'.attached && v'.closed && v'.sent == v.sent && v'.queue == v.queue)
    ensures var s' := Apply(s, Broadcast(chunk, startups)); var v, v' := s.views[id], s'.views[id];
            (v.waitKeyframe && NoKeyframe(chunk, 0, |chunk|) ==> id in s'.attached && v'.waitKeyframe && v'.sent == v'.queue == [])
            && forall k: nat :: v.waitKeyframe && k % PACKET_SIZE == 0 && KeyframeIn(chunk, k) && NoKeyframe(chunk, 0, k) ==>
                 id in s'.attached && !v'.waitKeyframe && v'.sent == v'.queue == [startups[id] + chunk[k..]]
  {
    hide TablesInv, IsStartup, IsPackets, ContentInv;
    var v := s.views[id];
    assert ViewInv(v, s.log, true);
    assert |chunk| % PACKET_SIZE == 0 by {
      PacketsFlat(chunk);
    }
    hide NoKeyframe, KeyframeIn;
    FirstKeyframe(chunk);
    hide KeyframeAt;
  }

  lemma FirstKeyframe(chunk: Bytes)
    requires |chunk| % PACKET_SIZE == 0
    ensures NoKeyframe(chunk, 0, |chunk|) <==> KeyframeAt(chunk, 0) == |chunk|
    ensures forall k: nat :: k % PACKET_SIZE == 0 && KeyframeIn(chunk, k) && NoKeyframe(chunk, 0, k) ==> KeyframeAt(chunk, 0) == k < |chunk|
  {
    KeyframeScan(chunk, 0);
    var at := KeyframeAt(chunk, 0);
    hide KeyframeAt, HasRandomAccess;
    if at < |chunk| {
      assert KeyframeIn(chunk, at);
    }
    forall k: nat | k % PACKET_SIZE == 0 && KeyframeIn(chunk, k) && NoKeyframe(chunk, 0, k) ensures at == k < |chunk| {
      assert !(at < k) && !(k < at);
    }
  }
}
