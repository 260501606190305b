/** The read loop of internal/core/stream/copy.go: reads of any size are framed with a
    carry between them, and every framed run is handed to the broadcaster in bursts. */
module TsCopy {
  import opened Seqs
  import opened MpegTs

  const MAX_PROBE_BYTES: nat := 262144
  const BURST_BYTES: nat := 6016

  datatype ReadError = NoError | EndOfInput | Canceled | Broken

  /** One turn of the loop: `halt` is the check made before reading (stopped, context
      done, or no viewer left), `stopped` the session flag seen after a read error. */
  datatype Turn = Turn(halt: bool, bytes: Bytes, error: ReadError, stopped: bool)

  datatype CopyOptions = CopyOptions(maxBytes: int, segment: bool)

  datatype Outcome =
    | Ended            // nil: halted, stopped, cancelled, or a segment fully copied
    | TooLarge         // segment exceeds maxBytes
    | NoSyncInProbe    // probe window exhausted without a packet
    | SegmentNotTs     // segment ended without a packet
    | ClosedEarly      // upstream closed before the first packet
    | Closed           // upstream closed
    | ReadFailed       // any other read error
    | Reading          // every given turn used, the loop is still reading

  /** The bytes of the first n turns. */
  function Input(turns: seq<Turn>, n: nat): Bytes
    requires n <= |turns|
  {
    if n == 0 then [] else Input(turns, n - 1) + turns[n - 1].bytes
  }

  lemma InputStep(turns: seq<Turn>, n: nat)
    requires n < |turns|
    ensures Input(turns, n + 1) == Input(turns, n) + turns[n].bytes
    ensures turns[n].bytes == [] ==> Input(turns, n + 1) == Input(turns, n)
  {
  }

  /** Emitted bytes and carry stand for the whole input, whatever comes next. */
  ghost predicate Refines(out: Bytes, carry: Bytes, input: Bytes) {
    forall future: Bytes :: Greedy(input + future) == out + Greedy(carry + future)
  }

  lemma FeedRefinesAt(out: Bytes, carry: Bytes, input: Bytes, read: Bytes, future: Bytes)
    requires Greedy(input + (read + future)) == out + Greedy(carry + (read + future))
    ensures var r := Extracted(carry + read);
            Greedy((input + read) + future) == (out + r.0) + Greedy(r.1 + future)
  {
    hide *;
    var r := Extracted(carry + read);
    Assoc(input, read, future);
    Assoc(carry, read, future);
    ExtractRefinesGreedy(carry + read, future);
    Assoc(out, r.0, Greedy(r.1 + future));
  }

  /** One read keeps the refinement, for every future. */
  lemma {:induction false} FeedRefines(out: Bytes, carry: Bytes, input: Bytes, read: Bytes)
    requires Refines(out, carry, input)
    ensures var r := Extracted(carry + read); Refines(out + r.0, r.1, input + read)
  {
    hide Extracted, Greedy;
    var r := Extracted(carry + read);
    forall future: Bytes
      ensures Greedy((input + read) + future) == (out + r.0) + Greedy(r.1 + future)
    {
      FeedRefinesAt(out, carry, input, read, future);
    }
  }

  /** Every run handed to the broadcaster is a positive number of whole packets. */
  predicate WholeRuns(emitted: seq<Bytes>) {
    forall run :: run in emitted ==> run != [] && IsPackets(run)
  }

  /** One non-empty read: frame it with the carry, keep a run if there is one. */
  method Feed(emitted: seq<Bytes>, carry: Bytes, read: Bytes, ghost input: Bytes)
    returns (emitted': seq<Bytes>, carry': Bytes, got: bool)
    requires Refines(Flatten(emitted), carry, input) && WholeRuns(emitted)
    ensures Refines(Flatten(emitted'), carry', input + read) && WholeRuns(emitted')
    ensures got ==> emitted' != []
    ensures !got ==> emitted' == emitted
    ensures (Flatten(emitted'), carry') == (Flatten(emitted) + Extracted(carry + read).0, Extracted(carry + read).1)
  {
    FeedRefines(Flatten(emitted), carry, input, read);
    ExtractRefinesGreedy(carry + read, []);
    hide Refines, Greedy, Flatten, IsPackets, Extracted;
    var framed, rest := ExtractFramed(carry + read);
    got, carry' := framed != [], rest;
    if got {
      FlattenSnoc(emitted, framed);
      emitted' := emitted + [framed];
    } else {
      assert Flatten(emitted) + framed == Flatten(emitted);
      emitted' := emitted;
    }
  }

  /** The verdict on a turn whose bytes were handled: first the probe window, then the
      read error; Reading when there is neither. */
  function Verdict(t: Turn, opts: CopyOptions, gotMedia: bool, ready: bool, probed: nat): Outcome {
    if !opts.segment && !ready && probed > MAX_PROBE_BYTES then NoSyncInProbe
    else if t.error == NoError then Reading
    else if t.stopped || t.error == Canceled then Ended
    else if t.error != EndOfInput then ReadFailed
    else if opts.segment then (if gotMedia then Ended else SegmentNotTs)
    else if ready then Closed else ClosedEarly
  }

  // ---------------------------------------------------------------- how the loop must end

  /** What the first n turns frame: all that is handed on, and the bytes carried over. */
  function Framing(turns: seq<Turn>, n: nat): (Bytes, Bytes)
    requires n <= |turns|
  {
    if n == 0 then ([], [])
    else
      var (out, carry) := Framing(turns, n - 1);
      if turns[n - 1].bytes == [] then (out, carry)
      else
        var r := Extracted(carry + turns[n - 1].bytes);
        (out + r.0, r.1)
  }

  predicate HasMedia(turns: seq<Turn>, n: nat)
    requires n <= |turns|
  {
    Framing(turns, n).0 != []
  }

  /** Too many bytes without a packet, in a stream that was never ready. */
  predicate ProbeOver(turns: seq<Turn>, opts: CopyOptions, everReady: bool, n: nat)
    requires n <= |turns|
  {
    !opts.segment && !everReady && !HasMedia(turns, n) && |Input(turns, n)| > MAX_PROBE_BYTES
  }

  /** Turn k ends the loop before its bytes are framed. */
  predicate EndsBefore(turns: seq<Turn>, opts: CopyOptions, k: nat)
    requires k < |turns|
  {
    turns[k].halt || (opts.maxBytes > 0 && |Input(turns, k)| + |turns[k].bytes| > opts.maxBytes)
  }

  /** Turn k ends the loop after its bytes were framed. */
  predicate EndsAfter(turns: seq<Turn>, opts: CopyOptions, everReady: bool, k: nat)
    requires k < |turns|
  {
    turns[k].error != NoError || ProbeOver(turns, opts, everReady, k + 1)
  }

  /** No turn whose bytes were framed ended the loop, the last one perhaps excepted. */
  predicate Undisturbed(turns: seq<Turn>, opts: CopyOptions, everReady: bool, fed: nat)
    requires fed <= |turns|
  {
    (forall k :: 0 <= k < fed ==> !EndsBefore(turns, opts, k))
    && forall k :: 0 <= k < fed - 1 ==> !EndsAfter(turns, opts, everReady, k)
  }

  predicate EndedAfter(turns: seq<Turn>, opts: CopyOptions, everReady: bool, fed: nat)
    requires fed <= |turns|
  {
    0 < fed && EndsAfter(turns, opts, everReady, fed - 1)
  }

  predicate EndedBefore(turns: seq<Turn>, opts: CopyOptions, everReady: bool, fed: nat)
    requires fed <= |turns|
  {
    !EndedAfter(turns, opts, everReady, fed) && fed < |turns| && EndsBefore(turns, opts, fed)
  }

  /** The read error of the last turn decides: nobody asked the loop to end. */
  predicate ErrorDecides(turns: seq<Turn>, opts: CopyOptions, everReady: bool, fed: nat, error: ReadError)
    requires fed <= |turns|
  {
    EndedAfter(turns, opts, everReady, fed) && !ProbeOver(turns, opts, everReady, fed)
    && !turns[fed - 1].stopped && turns[fed - 1].error == error
  }

  /** When the loop ends with which outcome. */
  predicate EndsAs(turns: seq<Turn>, opts: CopyOptions, everReady: bool, fed: nat, outcome: Outcome)
    requires fed <= |turns|
  {
    var ready, media := everReady || HasMedia(turns, fed), HasMedia(turns, fed);
    var after, before := EndedAfter(turns, opts, everReady, fed), EndedBefore(turns, opts, everReady, fed);
    var eof := ErrorDecides(turns, opts, everReady, fed, EndOfInput);
    && Undisturbed(turns, opts, everReady, fed)
    && (outcome == Reading <==> !after && !before)
    && (outcome == Reading ==> fed == |turns|)
    && (outcome == TooLarge <==> before && !turns[fed].halt)
    && (outcome == NoSyncInProbe <==> after && ProbeOver(turns, opts, everReady, fed))
    && (outcome == ReadFailed <==> ErrorDecides(turns, opts, everReady, fed, Broken))
    && (outcome == SegmentNotTs <==> eof && opts.segment && !media)
    && (outcome == ClosedEarly <==> eof && !opts.segment && !ready)
    && (outcome == Closed <==> eof && !opts.segment && ready)
    && (outcome == Ended <==>
          (before && turns[fed].halt)
          || (after && !ProbeOver(turns, opts, everReady, fed) && (turns[fed - 1].stopped || turns[fed - 1].error == Canceled))
          || (eof && opts.segment && media))
  }

  /** The loop is still going after `fed` turns. */
  predicate GoingOn(turns: seq<Turn>, opts: CopyOptions, everReady: bool, fed: nat)
    requires fed <= |turns|
  {
    Undisturbed(turns, opts, everReady, fed) && !EndedAfter(turns, opts, everReady, fed)
  }

  lemma EndsNow(turns: seq<Turn>, opts: CopyOptions, everReady: bool, fed: nat)
    requires fed < |turns| && GoingOn(turns, opts, everReady, fed) && EndsBefore(turns, opts, fed)
    ensures EndsAs(turns, opts, everReady, fed, if turns[fed].halt then Ended else TooLarge)
  {
    hide HasMedia, ProbeOver, Input;
  }

  /** The loop's own verdict on a turn whose bytes were framed. */
  lemma TurnEnds(turns: seq<Turn>, opts: CopyOptions, everReady: bool, fed: nat, gotMedia: bool, ready: bool, probed: nat)
    requires fed < |turns| && GoingOn(turns, opts, everReady, fed) && !EndsBefore(turns, opts, fed)
    requires (gotMedia <==> HasMedia(turns, fed + 1)) && (ready <==> everReady || gotMedia)
    requires !opts.segment && !ready ==> probed == |Input(turns, fed + 1)|
    ensures var outcome := Verdict(turns[fed], opts, gotMedia, ready, probed);
            if outcome == Reading then GoingOn(turns, opts, everReady, fed + 1) else EndsAs(turns, opts, everReady, fed + 1, outcome)
  {
    hide HasMedia, Input;
  }

  lemma AllRead(turns: seq<Turn>, opts: CopyOptions, everReady: bool)
    requires GoingOn(turns, opts, everReady, |turns|)
    ensures EndsAs(turns, opts, everReady, |turns|, Reading)
  {
    hide HasMedia, ProbeOver, Input;
  }

  lemma CopyStarts(turns: seq<Turn>, opts: CopyOptions, everReady: bool)
    ensures Refines(Flatten([]), [], Input(turns, 0)) && WholeRuns([]) && Framing(turns, 0) == ([], [])
    ensures GoingOn(turns, opts, everReady, 0) && |Input(turns, 0)| == 0 && Flatten<bv8>([]) == []
  {
  }

  /** Nothing is handed on exactly when nothing was framed. */
  lemma {:induction false} EmptyRuns(emitted: seq<Bytes>)
    requires WholeRuns(emitted)
    ensures Flatten(emitted) == [] <==> emitted == []
  {
    if emitted != [] {
      assert emitted[0] in emitted;
    }
  }

  /** The copy loop. `fed` counts the turns whose bytes reached the framer. */
  method CopyMpegTs(turns: seq<Turn>, opts: CopyOptions, everReady: bool)
    returns (emitted: seq<Bytes>, carry: Bytes, ready: bool, fed: nat, outcome: Outcome)
    ensures fed <= |turns|
    ensures Refines(Flatten(emitted), carry, Input(turns, fed)) && WholeRuns(emitted)
    ensures (Flatten(emitted), carry) == Framing(turns, fed)
    ensures ready <==> everReady || emitted != []
    ensures EndsAs(turns, opts, everReady, fed, outcome)
  {
    hide *;
    CopyStarts(turns, opts, everReady);
    emitted, carry, ready, fed, outcome := [], [], everReady, 0, Reading;
    var probed: nat, total: nat, gotMedia := 0, 0, false;
    while fed < |turns| && outcome == Reading
      invariant fed <= |turns|
      invariant Refines(Flatten(emitted), carry, Input(turns, fed)) && WholeRuns(emitted)
      invariant (Flatten(emitted), carry) == Framing(turns, fed)
      invariant gotMedia <==> emitted != []
      invariant ready <==> everReady || gotMedia
      invariant if outcome == Reading then GoingOn(turns, opts, everReady, fed) else EndsAs(turns, opts, everReady, fed, outcome)
      invariant outcome == Reading ==> total == |Input(turns, fed)|
      invariant outcome == Reading && !opts.segment && !ready ==> probed == |Input(turns, fed)|
      decreases |turns| - fed, outcome == Reading
    {
      var t := turns[fed];
      BeforeIs(turns, opts, fed);
      if t.halt || (opts.maxBytes > 0 && total + |t.bytes| > opts.maxBytes) {
        outcome := if t.halt then Ended else TooLarge;
        EndsNow(turns, opts, everReady, fed);
      } else {
        InputStep(turns, fed);
        FramingStep(turns, fed);
        total := total + |t.bytes|;
        if t.bytes != [] {
          var got;
          emitted, carry, got := Feed(emitted, carry, t.bytes, Input(turns, fed));
          gotMedia, ready := gotMedia || got, ready || got;
          if !ready && !opts.segment {
            probed := probed + |t.bytes|;
          }
        }
        MediaIs(turns, fed + 1, emitted, carry);
        TurnEnds(turns, opts, everReady, fed, gotMedia, ready, probed);
        fed := fed + 1;
        outcome := Verdict(t, opts, gotMedia, ready, probed);
      }
    }
    if outcome == Reading {
      AllRead(turns, opts, everReady);
    }
  }

  lemma BeforeIs(turns: seq<Turn>, opts: CopyOptions, k: nat)
    requires k < |turns|
    ensures EndsBefore(turns, opts, k) <==> turns[k].halt || (opts.maxBytes > 0 && |Input(turns, k)| + |turns[k].bytes| > opts.maxBytes)
  {
  }

  lemma FramingStep(turns: seq<Turn>, n: nat)
    requires n < |turns|
    ensures Framing(turns, n + 1)
         == if turns[n].bytes == [] then Framing(turns, n)
            else (Framing(turns, n).0 + Extracted(Framing(turns, n).1 + turns[n].bytes).0, Extracted(Framing(turns, n).1 + turns[n].bytes).1)
  {
    hide Extracted;
  }

  lemma MediaIs(turns: seq<Turn>, n: nat, emitted: seq<Bytes>, carry: Bytes)
    requires n <= |turns| && (Flatten(emitted), carry) == Framing(turns, n) && WholeRuns(emitted)
    ensures HasMedia(turns, n) <==> emitted != []
  {
    EmptyRuns(emitted);
    hide Framing, Flatten, WholeRuns;
  }

  /** Two ways of cutting one input into reads stand for the same packets. */
  lemma SplittingDoesNotMatter(e1: seq<Bytes>, c1: Bytes, e2: seq<Bytes>, c2: Bytes, input: Bytes)
    requires Refines(Flatten(e1), c1, input) && Refines(Flatten(e2), c2, input)
    ensures Flatten(e1) + Greedy(c1) == Flatten(e2) + Greedy(c2) == Greedy(input)
  {
    hide Greedy, Flatten;
    assert input + [] == input && c1 + [] == c1 && c2 + [] == c2;
  }

  /** Cutting a framed run into live-sized bursts, each broadcast on its own. */
  method BroadcastFramed(data: Bytes) returns (bursts: seq<Bytes>)
    requires IsPackets(data)
    ensures Flatten(bursts) == data
    ensures forall b :: b in bursts ==> IsPackets(b) && 0 < |b| <= BURST_BYTES
  {
    bursts := [];
    var done := 0;
    assert data[0..] == data && Flatten(bursts) == data[..0];
    while PACKET_SIZE <= |data| - done
      invariant done <= |data| && IsPackets(data[done..])
      invariant Flatten(bursts) == data[..done]
      invariant forall b :: b in bursts ==> IsPackets(b) && 0 < |b| <= BURST_BYTES
      decreases |data| - done
    {
      hide *;
      var left := |data| - done;
      var burst := BURST_BYTES;
      if burst > left {
        burst := left - left % PACKET_SIZE;
      } else {
        burst := burst - burst % PACKET_SIZE;
      }
      if burst < PACKET_SIZE {
        break;
      }
      BurstIsWhole(data, done, burst);
      FlattenSnoc(bursts, data[done..done + burst]);
      bursts := bursts + [data[done..done + burst]];
      done := done + burst;
    }
    assert data[..|data|] == data;
  }

  lemma BurstIsWhole(data: Bytes, done: nat, burst: nat)
    requires done + burst <= |data| && IsPackets(data[done..]) && PACKET_SIZE <= burst
    requires burst == |data| - done - (|data| - done) % PACKET_SIZE || burst == BURST_BYTES
    ensures IsPackets(data[done..done + burst]) && IsPackets(data[done + burst..])
    ensures data[..done] + data[done..done + burst] == data[..done + burst]
  {
    PacketsCut(data[done..], burst);
    assert data[done..][..burst] == data[done..done + burst];
    assert data[done..][burst..] == data[done + burst..];
  }
}
