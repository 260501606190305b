/** The session object of internal/core/stream/session.go and copy.go: a map of viewer
    objects updated in place. Every method is one step of FanoutModel. */
module Session {
  import opened Seqs
  import opened MpegTs
  import M = FanoutModel

  class Viewer {
    const id: nat
    const cap: nat
    var queue: seq<Bytes>
    var closed: bool
    var waitKeyframe: bool

    // history, see FanoutModel.View
    ghost var sent: seq<Bytes>
    ghost var taken: nat
    ghost var late: bool
    ghost var prefix: Bytes
    ghost var joined: nat
    ghost var start: nat
    ghost var stop: nat

    ghost function View(): M.View
      reads this
    {
      M.View(cap, queue, closed, waitKeyframe, sent, taken, late, prefix, joined, start, stop)
    }

    constructor (id: nat, cap: nat, ghost position: nat)
      ensures this.id == id
      ensures View() == M.View(cap, [], false, false, [], 0, false, [], position, position, position)
    {
      this.id, this.cap := id, cap;
      queue, closed, waitKeyframe := [], false, false;
      sent, taken, late, prefix := [], 0, false, [];
      joined, start, stop := position, position, position;
    }

    /** The non-blocking send with its default branch. */
    method TrySend(out: Bytes, ghost stop': nat)
      modifies this
      ensures View() == M.Push(old(View()), out, stop')
    {
      if |queue| < cap {
        queue := queue + [out];
        sent, stop := sent + [out], stop';
      } else {
        closed := true;
      }
    }

    method Close()
      modifies this
      ensures View() == old(View()).(closed := true)
    {
      if !closed {
        closed := true;
      }
    }

    /** One receive from the channel: a chunk, or nothing when it is empty. */
    method Receive() returns (chunk: Option<Bytes>)
      modifies this
      ensures old(queue) == [] ==> chunk == None && View() == old(View())
      ensures old(queue) != [] ==>
                chunk == Some(old(queue[0]))
                && View() == old(View()).(queue := old(queue[1..]), taken := old(taken) + 1)
    {
      if queue == [] {
        return None;
      }
      chunk := Some(queue[0]);
      queue, taken := queue[1..], taken + 1;
    }
  }

  class Session {
    const transcode: bool
    var everReady: bool
    var pat: Bytes
    var pmts: map<nat, Bytes>
    var seenRai: bool
    var viewers: map<nat, Viewer>
    var nextId: nat
    var bytesSent: nat
    var stopped: bool

    ghost var stopMark: nat
    ghost var all: map<nat, Viewer>   // every viewer that ever joined
    ghost var log: Bytes              // every byte broadcast

    ghost predicate Valid()
      reads this
    {
      && (forall id :: id in viewers ==> id in all && viewers[id] == all[id])
      && forall id :: id in all ==> all[id].id == id && id <= nextId
    }

    ghost function Tables(): M.Tables
      reads this
    {
      M.Tables(pat, pmts, seenRai)
    }

    ghost function Views(): map<nat, M.View>
      reads `all, all.Values
    {
      map id | id in all :: all[id].View()
    }

    ghost function Abs(): M.State
      reads this, all.Values
    {
      M.State(transcode, everReady, Tables(), log, bytesSent, nextId, viewers.Keys, Views(), stopped, stopMark)
    }

    constructor (transcode: bool)
      ensures Valid() && Abs() == M.Init(transcode)
    {
      this.transcode := transcode;
      everReady, pat, pmts, seenRai := false, [], map[], false;
      viewers, nextId, bytesSent := map[], 0, 0;
      all, log, stopped, stopMark := map[], [], false, 0;
    }

    /** PAT, then the PMTs in whatever order the map yields them. */
    method StartupPackets() returns (out: Bytes)
      ensures M.IsStartup(Tables(), out)
    {
      out := pat;
      var todo := pmts.Keys;
      ghost var order: seq<nat> := [];
      while todo != {}
        invariant todo <= pmts.Keys
        invariant multiset(order) + multiset(todo) == multiset(pmts.Keys)
        invariant forall pid :: pid in order ==> pid in pmts
        invariant out == pat + M.PmtBytes(order, pmts)
        decreases todo
      {
        var pid :| pid in todo;
        PmtSnoc(order, pid, pmts);
        Assoc(pat, M.PmtBytes(order, pmts), pmts[pid]);
        out := out + pmts[pid];
        order, todo := order + [pid], todo - {pid};
      }
    }

    /** Late joiners of a transcoded stream wait for a keyframe, others get the tables. */
    method Greet(v: Viewer, out: Bytes)
      requires v.View() == M.View(v.cap, [], false, false, [], 0, false, [], |log|, |log|, |log|)
      modifies v
      ensures v.View() == M.Greeted(v.cap, |log|, transcode && everReady && seenRai, out)
    {
      if transcode && everReady && seenRai {
        v.waitKeyframe, v.late := true, true;
      } else if |out| > 0 && |v.queue| < v.cap {
        v.queue := v.queue + [out];
        v.sent, v.prefix := v.sent + [out], out;
      }
    }

    method Register(v: Viewer)
      requires Valid() && v.id == nextId && v.id !in all
      modifies `viewers, `all
      ensures Valid() && viewers == old(viewers)[v.id := v] && all == old(all)[v.id := v]
      ensures Views() == old(Views())[v.id := v.View()]
    {
      viewers, all := viewers[v.id := v], all[v.id := v];
    }

    method AddViewer(bufferSize: nat) returns (v: Viewer, ghost startup: Bytes)
      requires Valid() && 1 <= bufferSize
      modifies this
      ensures Valid() && fresh(v) && viewers == old(viewers)[v.id := v] && all == old(all)[v.id := v]
      ensures M.IsStartup(old(Tables()), startup)
      ensures Abs() == M.Apply(old(Abs()), M.Join(bufferSize, startup))
    {
      hide M.IsStartup, M.Greeted, Views;
      nextId := nextId + 1;
      v := new Viewer(nextId, bufferSize, |log|);
      var out := StartupPackets();
      startup := out;
      Greet(v, out);
      Register(v);
    }

    /** Closing one attached viewer and taking it off the map. */
    method Detach(id: nat)
      requires Valid() && id in viewers && id in Views()
      modifies `viewers, viewers[id]
      ensures Valid() && viewers == old(viewers) - {id}
      ensures Views() == old(Views())[id := old(Views())[id].(closed := true)]
      ensures Views().Keys == old(Views()).Keys
    {
      var v := viewers[id];
      viewers := viewers - {id};
      v.Close();
    }

    lemma ViewKeys()
      ensures Views().Keys == all.Keys
    {
    }

    method RemoveViewer(id: nat)
      requires Valid()
      modifies `viewers, viewers.Values
      ensures Valid()
      ensures Abs() == M.Apply(old(Abs()), M.Leave(id))
    {
      hide Views;
      ViewKeys();
      if id in viewers {
        Detach(id);
      }
    }

    method DetachAll()
      requires Valid()
      modifies `viewers, viewers.Values
      ensures Valid() && viewers == map[]
      ensures Views() == M.ClosedFor(old(Views()), old(viewers).Keys)
    {
      hide Views;
      ViewKeys();
      ghost var before := Views();
      while viewers != map[]
        invariant Valid() && viewers.Keys <= old(viewers).Keys <= before.Keys
        invariant forall id :: id in viewers ==> viewers[id] == old(viewers)[id]
        invariant Views().Keys == before.Keys
        invariant Views() == M.ClosedFor(before, old(viewers).Keys - viewers.Keys)
        decreases viewers.Keys
      {
        var id :| id in viewers;
        Detach(id);
      }
      assert viewers.Keys == {};
      assert old(viewers).Keys - {} == old(viewers).Keys;
    }

    method Stop()
      requires Valid()
      modifies `viewers, `stopped, `stopMark, viewers.Values
      ensures Valid()
      ensures Abs() == M.Apply(old(Abs()), M.Stop)
    {
      hide Views, M.ClosedFor;
      if stopped {
        return;
      }
      stopped, stopMark := true, nextId;
      DetachAll();
    }

    /** Learning PAT, PMT and keyframes from one broadcast packet. */
    method ObservePacket(pkt: Bytes)
      modifies `pat, `pmts, `seenRai
      ensures Tables() == M.Observed(old(Tables()), pkt)
    {
      if |pkt| != PACKET_SIZE || pkt[0] != SYNC_BYTE {
        return;
      }
      var rai := HasRandomAccess(pkt);
      if !HasPusi(pkt) && !rai {
        return;
      }
      if rai {
        seenRai := true;
      }
      if !HasPusi(pkt) {
        return;
      }
      if Pid(pkt) == 0 {
        pat := pkt;
        return;
      }
      if M.HasPmtTable(pkt) {
        pmts := pmts[Pid(pkt) := pkt];
      }
    }

    method SwitchUpstream()
      requires Valid()
      modifies `pat, `pmts, `seenRai
      ensures Abs() == M.Apply(old(Abs()), M.SwitchUpstream)
    {
      pat, pmts, seenRai := [], map[], false;
    }

    method MarkReady()
      requires Valid()
      modifies `everReady
      ensures Abs() == M.Apply(old(Abs()), M.MarkReady)
    {
      if !everReady {
        everReady := true;
      }
    }

    /** One viewer's share of a broadcast. */
    method DeliverTo(v: Viewer, pkt: Bytes) returns (ghost startup: Bytes)
      modifies v
      ensures M.IsStartup(Tables(), startup)
      ensures v.View() == M.Deliver(old(v.View()), pkt, |log|, startup)
      ensures v.closed == M.Deliver(old(v.View()), pkt, |log|, startup).closed
    {
      hide M.IsStartup, M.KeyframeAt;
      var tables := StartupPackets();
      startup := tables;
      if v.waitKeyframe {
        var cut := M.KeyframeAt(pkt, 0);
        if cut == |pkt| {
          v.start, v.stop := |log| + |pkt|, |log| + |pkt|;
        } else {
          v.waitKeyframe := false;
          v.prefix, v.start := tables, |log| + cut;
          v.TrySend(tables + pkt[cut..], |log| + |pkt|);
        }
      } else {
        v.TrySend(pkt, |log| + |pkt|);
      }
    }

    /** The same, seen on the map of all views: nobody else is touched, and a viewer whose
        channel was full is dropped. */
    method Visit(id: nat, pkt: Bytes) returns (ghost startup: Bytes)
      requires Valid() && id in viewers && id in Views()
      modifies `viewers, viewers[id]
      ensures Valid() && M.IsStartup(Tables(), startup)
      ensures var w := M.Deliver(old(Views())[id], pkt, |log|, startup);
              Views() == old(Views())[id := w] && Views().Keys == old(Views()).Keys
              && viewers == if w.closed then old(viewers) - {id} else old(viewers)
    {
      hide M.IsStartup, M.Deliver;
      var v := viewers[id];
      startup := DeliverTo(v, pkt);
      if v.closed {
        viewers := viewers - {id};
      }
    }

    /** The loop over the viewer map, in whatever order it yields them. */
    method FanOut(pkt: Bytes) returns (ghost startups: map<nat, Bytes>)
      requires Valid()
      modifies `viewers, viewers.Values
      ensures Valid() && startups.Keys == old(viewers).Keys
      ensures forall id :: id in startups ==> M.IsStartup(Tables(), startups[id])
      ensures Views() == M.DeliveredTo(old(Views()), pkt, |log|, startups)
      ensures viewers.Keys == M.StillOpen(old(viewers).Keys, Views())
    {
      hide M.Deliver, M.IsStartup, Views, M.DeliveredTo;
      M.DeliveredToNone(Views(), pkt, |log|);
      ViewKeys();
      var todo := viewers.Keys;
      startups := map[];
      ghost var before := Views();
      while todo != {}
        invariant Valid() && todo <= viewers.Keys <= old(viewers).Keys <= before.Keys
        invariant startups.Keys == old(viewers).Keys - todo
        invariant forall id :: id in startups ==> M.IsStartup(Tables(), startups[id])
        invariant Views() == M.DeliveredTo(before, pkt, |log|, startups)
        invariant Views().Keys == before.Keys
        invariant forall id :: id in startups ==> (id in viewers <==> !Views()[id].closed)
        invariant forall id :: id in viewers ==> viewers[id] == old(viewers)[id]
        decreases todo
      {
        var id :| id in todo;
        M.DeliveredToOneMore(before, pkt, |log|, startups, id);
        ghost var startup := Visit(id, pkt);
        startups, todo := startups[id := startup], todo - {id};
      }
    }

    method Broadcast(pkt: Bytes) returns (ghost startups: map<nat, Bytes>)
      requires Valid() && IsPackets(pkt)
      modifies this, viewers.Values
      ensures Valid() && all == old(all)
      ensures M.Enabled(old(Abs()), M.Broadcast(pkt, startups))
      ensures Abs() == M.Apply(old(Abs()), M.Broadcast(pkt, startups))
    {
      hide M.Deliver, M.IsStartup, Views, IsPackets, M.DeliveredTo, M.StillOpen;
      ViewKeys();
      bytesSent := bytesSent + |pkt|;
      startups := FanOut(pkt);
      log := log + pkt;
    }
  }

  datatype ReadResult = Got(data: Bytes) | EndOfStream | Blocked

  /** The reader handed to a subscriber. */
  class ViewerReader {
    const viewer: Viewer
    var buf: Bytes
    ghost var delivered: Bytes

    constructor (viewer: Viewer)
      requires viewer.taken == 0
      ensures this.viewer == viewer && buf == delivered == []
    {
      this.viewer := viewer;
      buf, delivered := [], [];
    }

    /** What was delivered, then the buffer, is what was received from the channel. */
    ghost predicate Valid()
      reads this, viewer
    {
      && viewer.taken <= |viewer.sent| && viewer.queue == viewer.sent[viewer.taken..]
      && delivered + buf == Flatten(viewer.sent[..viewer.taken])
    }

    /** One Read of at most n bytes. End of stream only comes after every byte. */
    method Read(n: nat) returns (r: ReadResult)
      requires Valid()
      modifies this, viewer
      ensures Valid() && viewer.sent == old(viewer.sent)
      ensures r.Got? ==> |r.data| <= n && delivered == old(delivered) + r.data
      ensures !r.Got? ==> delivered == old(delivered) && viewer.queue == [] && buf == []
      ensures r.EndOfStream? ==> viewer.closed && delivered == Flatten(viewer.sent)
    {
      while |buf| == 0
        invariant Valid() && viewer.sent == old(viewer.sent) && delivered == old(delivered)
        decreases |viewer.queue|
      {
        ghost var taken := viewer.taken;
        var chunk := viewer.Receive();
        if chunk == None {
          assert viewer.sent[..viewer.taken] == viewer.sent && delivered + buf == delivered;
          return if viewer.closed then EndOfStream else Blocked;
        }
        assert viewer.sent[..taken + 1] == viewer.sent[..taken] + [viewer.sent[taken]];
        FlattenSnoc(viewer.sent[..taken], viewer.sent[taken]);
        buf := chunk.value;
      }
      var k := if n < |buf| then n else |buf|;
      r := Got(buf[..k]);
      delivered, buf := delivered + buf[..k], buf[k..];
    }
  }

  lemma {:induction false} PmtSnoc(order: seq<nat>, pid: nat, pmts: map<nat, Bytes>)
    requires (forall p :: p in order ==> p in pmts) && pid in pmts
    ensures M.PmtBytes(order + [pid], pmts) == M.PmtBytes(order, pmts) + pmts[pid]
  {
    if order == [] {
      assert (order + [pid])[1..] == [];
      assert M.PmtBytes([], pmts) == [];
    } else {
      assert order[0] in order && (order + [pid])[1..] == order[1..] + [pid];
      PmtSnoc(order[1..], pid, pmts);
      Assoc(pmts[order[0]], M.PmtBytes(order[1..], pmts), pmts[pid]);
    }
  }
}
