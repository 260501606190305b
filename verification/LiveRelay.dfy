/** The relay end to end: from the reads of every pump of a session to a viewer's bytes. */
module LiveRelay {
  import opened Seqs
  import opened MpegTs
  import opened TsCopy
  import opened FanoutModel
  import opened Fanout

  /** One pump: the turns of its read loop, what that loop kept, and the bursts each run was
      cut into. */
  datatype Pump = Pump(turns: seq<Turn>, fed: nat, emitted: seq<Bytes>, carry: Bytes, bursts: seq<seq<Bytes>>)

  /** What CopyMpegTs and BroadcastFramed promise of a pump. */
  ghost predicate PumpOk(p: Pump) {
    p.fed <= |p.turns| && Refines(Flatten(p.emitted), p.carry, Input(p.turns, p.fed))
    && |p.bursts| == |p.emitted| && forall i :: 0 <= i < |p.bursts| ==> Flatten(p.bursts[i]) == p.emitted[i]
  }

  /** A pump run by the code is such a pump. */
  method RunPump(turns: seq<Turn>, opts: CopyOptions, everReady: bool) returns (p: Pump, ready: bool, outcome: Outcome)
    ensures PumpOk(p) && p.turns == turns && (ready <==> everReady || p.emitted != [])
    ensures forall burst :: burst in Flatten(p.bursts) ==> IsPackets(burst) && 0 < |burst| <= BURST_BYTES
  {
    hide Refines, Flatten, EndsAs, IsPackets, Framing;
    var emitted, carry, fed;
    emitted, carry, ready, fed, outcome := CopyMpegTs(turns, opts, everReady);
    var bursts: seq<seq<Bytes>> := [];
    NoBursts();
    for i := 0 to |emitted|
      invariant |bursts| == i && forall k :: 0 <= k < i ==> Flatten(bursts[k]) == emitted[k]
      invariant forall burst :: burst in Flatten(bursts) ==> IsPackets(burst) && 0 < |burst| <= BURST_BYTES
    {
      assert emitted[i] in emitted;
      var some := BroadcastFramed(emitted[i]);
      FlattenSnoc(bursts, some);
      bursts := bursts + [some];
    }
    p := Pump(turns, fed, emitted, carry, bursts);
  }

  lemma NoBursts()
    ensures Flatten<Bytes>([]) == []
  {
  }

  /** The chunks a run of the session broadcasts, and those its pumps hand over. */
  function Chunks(es: seq<Event>): seq<Bytes> {
    if es == [] then [] else (if es[0].Broadcast? then [es[0].chunk] else []) + Chunks(es[1..])
  }

  function Handed(pumps: seq<Pump>): seq<Bytes> {
    if pumps == [] then [] else Flatten(pumps[0].bursts) + Handed(pumps[1..])
  }

  /** What the pumps framed, one after the other; a carry dies with its pump. */
  function Stream(pumps: seq<Pump>): Bytes {
    if pumps == [] then [] else Flatten(pumps[0].emitted) + Stream(pumps[1..])
  }

  lemma {:induction false} ChunksAreBroadcasts(es: seq<Event>)
    ensures Flatten(Chunks(es)) == Broadcasts(es)
  {
    if es != [] {
      ChunksAreBroadcasts(es[1..]);
      if es[0].Broadcast? {
        FlattenConcat([es[0].chunk], Chunks(es[1..]));
        FlattenOne(es[0].chunk);
      } else {
        assert [] + Chunks(es[1..]) == Chunks(es[1..]) && [] + Broadcasts(es[1..]) == Broadcasts(es[1..]);
      }
    }
  }

  lemma {:induction false} BurstsAreRuns(bursts: seq<seq<Bytes>>, emitted: seq<Bytes>)
    requires |bursts| == |emitted| && forall i :: 0 <= i < |bursts| ==> Flatten(bursts[i]) == emitted[i]
    ensures Flatten(Flatten(bursts)) == Flatten(emitted)
    decreases |bursts|
  {
    if bursts != [] {
      BurstsAreRuns(bursts[1..], emitted[1..]);
      FlattenConcat(bursts[0], Flatten(bursts[1..]));
    }
  }

  lemma {:induction false} HandedIsStream(pumps: seq<Pump>)
    requires forall i :: 0 <= i < |pumps| ==> PumpOk(pumps[i])
    ensures Flatten(Handed(pumps)) == Stream(pumps)
  {
    if pumps != [] {
      assert PumpOk(pumps[0]);
      BurstsAreRuns(pumps[0].bursts, pumps[0].emitted);
      HandedIsStream(pumps[1..]);
      FlattenConcat(Flatten(pumps[0].bursts), Handed(pumps[1..]));
    }
  }

  /** What a pump framed is the framing of all it read, but for what its carry still held. */
  lemma PumpIsFramed(p: Pump)
    requires PumpOk(p)
    ensures Greedy(Input(p.turns, p.fed)) == Flatten(p.emitted) + Greedy(p.carry)
  {
    hide Greedy, Flatten;
    var input := Input(p.turns, p.fed);
    assert input + [] == input && p.carry + [] == p.carry;
  }

  lemma FlattenPrefix(a: seq<Bytes>, b: seq<Bytes>)
    requires a <= b
    ensures Flatten(a) <= Flatten(b)
  {
    assert b == a + b[|a|..];
    FlattenConcat(a, b[|a|..]);
  }

  /** Whatever the upstreams the session went through, the sizes of their reads and the
      interleaving with joins, leaves and other steps: every viewer holds its start-up tables
      and one slice of what the pumps framed, one after the other. */
  lemma ViewerHoldsASliceOfTheStream(transcode: bool, es: seq<Event>, id: nat, pumps: seq<Pump>)
    requires IsRun(Init(transcode), es) && id in Run(Init(transcode), es).views
    requires (forall i :: 0 <= i < |pumps| ==> PumpOk(pumps[i])) && Chunks(es) <= Handed(pumps)
    ensures var v := Run(Init(transcode), es).views[id];
            v.start <= v.stop <= |Stream(pumps)|
            && TablesOnly(v.prefix)
            && Flatten(v.sent) == v.prefix + Stream(pumps)[v.start..v.stop]
  {
    hide Greedy, Flatten, TablesOnly, Run, IsRun, Broadcasts, StartInv, IsPackets, PumpOk, Chunks, Handed, Stream;
    DeliveryIsContiguous(transcode, es, id);
    ChunksAreBroadcasts(es);
    HandedIsStream(pumps);
    FlattenPrefix(Chunks(es), Handed(pumps));
    var v := Run(Init(transcode), es).views[id];
    assert Broadcasts(es) <= Stream(pumps);
    assert Stream(pumps)[v.start..v.stop] == Broadcasts(es)[v.start..v.stop];
  }
}
