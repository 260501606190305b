/** Framing of a byte stream into 188-byte MPEG-TS packets
    (ISO/IEC 13818-1, section 2.4.3.2), as internal/core/mpegts/frame.go does it. */
module MpegTs {

  const PACKET_SIZE: nat := 188
  const SYNC_BYTE: bv8 := 0x47

  type Bytes = seq<bv8>

  /** A whole number of packets, each starting with the sync byte. */
  predicate IsPackets(s: Bytes)
    decreases |s|
  {
    s == [] || (PACKET_SIZE <= |s| && s[0] == SYNC_BYTE && IsPackets(s[PACKET_SIZE..]))
  }

  /** Whole-stream framing: skip to a sync byte, take a packet, repeat. */
  function Greedy(s: Bytes): (r: Bytes)
    ensures IsPackets(r)
    decreases |s|
  {
    if s == [] then []
    else if s[0] != SYNC_BYTE then Greedy(s[1..])
    else if |s| < PACKET_SIZE then []
    else
      assert (s[..PACKET_SIZE] + Greedy(s[PACKET_SIZE..]))[PACKET_SIZE..] == Greedy(s[PACKET_SIZE..]);
      s[..PACKET_SIZE] + Greedy(s[PACKET_SIZE..])
  }

  /** Index of the first sync byte at or after i, |s| when there is none. */
  function FirstSync(s: Bytes, i: nat): (j: nat)
    requires i <= |s|
    ensures i <= j <= |s|
    ensures j < |s| ==> s[j] == SYNC_BYTE
    ensures forall k :: i <= k < j ==> s[k] != SYNC_BYTE
    decreases |s| - i
  {
    if i == |s| || s[i] == SYNC_BYTE then i else FirstSync(s, i + 1)
  }

  /** End of the longest run of complete packets that starts at index e. */
  function RunEnd(s: Bytes, e: nat): (end: nat)
    requires e <= |s|
    ensures e <= end <= |s|
    ensures PACKET_SIZE <= |s| - end ==> s[end] != SYNC_BYTE
    decreases |s| - e
  {
    if e + PACKET_SIZE <= |s| && s[e] == SYNC_BYTE then RunEnd(s, e + PACKET_SIZE) else e
  }

  /** What one call extracts: the run at the first sync byte and the bytes after it.
      Without a sync byte at most 187 trailing bytes are kept. */
  function Extracted(data: Bytes): (r: (Bytes, Bytes))
    ensures PACKET_SIZE <= |r.1| ==> r.1[0] != SYNC_BYTE
  {
    var start := FirstSync(data, 0);
    if start == |data| then
      ([], if |data| > PACKET_SIZE - 1 then data[|data| - (PACKET_SIZE - 1)..] else data)
    else
      (data[start..RunEnd(data, start)], data[RunEnd(data, start)..])
  }

  /** The in-place scan over the read buffer. */
  method ExtractFramed(data: Bytes) returns (framed: Bytes, carry: Bytes)
    ensures framed == Extracted(data).0
    ensures carry == Extracted(data).1
  {
    var start := -1;
    for i := 0 to |data|
      invariant start == -1
      invariant FirstSync(data, 0) == FirstSync(data, i)
    {
      if data[i] == SYNC_BYTE {
        start := i;
        break;
      }
    }
    if start < 0 {
      if |data| > PACKET_SIZE - 1 {
        return [], data[|data| - (PACKET_SIZE - 1)..];
      }
      return [], data;
    }
    var end := start;
    while end + PACKET_SIZE <= |data|
      invariant start <= end <= |data|
      invariant RunEnd(data, start) == RunEnd(data, end)
    {
      if data[end] != SYNC_BYTE {
        break;
      }
      end := end + PACKET_SIZE;
    }
    if end == start {
      return [], data[start..];
    }
    return data[start..end], data[end..];
  }

  /** Extraction loses nothing: for every continuation of the input, what was emitted
      followed by the framing of the carried bytes is the framing of the whole. */
  lemma {:induction false} ExtractRefinesGreedy(data: Bytes, future: Bytes)
    ensures Greedy(data + future) == Extracted(data).0 + Greedy(Extracted(data).1 + future)
    ensures IsPackets(Extracted(data).0)
  {
    var start := FirstSync(data, 0);
    SkipNonSync(data, start, future);
    if start == |data| {
      var keep := Extracted(data).1;
      SkipNonSync(keep, |keep|, future);
      assert data[|data|..] + future == future == keep[|keep|..] + future;
    } else {
      TakeRun(data, start, future);
    }
  }

  /** Bytes before the first sync byte never matter to any future input. */
  lemma {:induction false} SkipNonSync(s: Bytes, i: nat, future: Bytes)
    requires i <= |s| && forall k :: 0 <= k < i ==> s[k] != SYNC_BYTE
    ensures Greedy(s + future) == Greedy(s[i..] + future)
  {
    if i == 0 {
      assert s[0..] == s;
    } else {
      assert (s + future)[1..] == s[1..] + future;
      assert s[1..][i - 1..] == s[i..];
      SkipNonSync(s[1..], i - 1, future);
    }
  }

  lemma {:induction false} TakeRun(s: Bytes, e: nat, future: Bytes)
    requires e <= |s|
    ensures Greedy(s[e..] + future) == s[e..RunEnd(s, e)] + Greedy(s[RunEnd(s, e)..] + future)
    ensures IsPackets(s[e..RunEnd(s, e)])
    decreases |s| - e
  {
    hide Greedy, IsPackets;
    var end := RunEnd(s, e);
    if end == e {
      assert s[e..e] == [];
      NoPackets();
    } else {
      TakeOne(s, e, future);
      TakeRun(s, e + PACKET_SIZE, future);
      OnePacketMore(s, e, end);
    }
  }

  lemma NoPackets()
    ensures IsPackets([])
  {
  }

  lemma TakeOne(s: Bytes, e: nat, future: Bytes)
    requires e + PACKET_SIZE <= |s| && s[e] == SYNC_BYTE
    ensures Greedy(s[e..] + future) == s[e..e + PACKET_SIZE] + Greedy(s[e + PACKET_SIZE..] + future)
  {
    var t := s[e..] + future;
    assert t[PACKET_SIZE..] == s[e + PACKET_SIZE..] + future;
    assert t[..PACKET_SIZE] == s[e..e + PACKET_SIZE];
  }

  lemma OnePacketMore(s: Bytes, e: nat, end: nat)
    requires e + PACKET_SIZE <= end <= |s| && s[e] == SYNC_BYTE && IsPackets(s[e + PACKET_SIZE..end])
    ensures s[e..end] == s[e..e + PACKET_SIZE] + s[e + PACKET_SIZE..end] && IsPackets(s[e..end])
  {
    assert s[e..end][PACKET_SIZE..] == s[e + PACKET_SIZE..end];
  }

  /** On packet-aligned input the carry is less than a packet and nothing is delayed. */
  lemma {:induction false} AlignedInputIsEmittedAtOnce(packets: Bytes, partial: Bytes)
    requires IsPackets(packets)
    requires |partial| < PACKET_SIZE && (partial != [] ==> partial[0] == SYNC_BYTE)
    ensures Extracted(packets + partial) == (packets, partial)
  {
    var s := packets + partial;
    if s != [] {
      assert FirstSync(s, 0) == 0;
      assert s[0..] == s;
      AlignedRun(s, 0, |packets|);
    }
  }

  lemma {:induction false} AlignedRun(s: Bytes, e: nat, end: nat)
    requires e <= end <= |s| && IsPackets(s[e..end]) && |s| - end < PACKET_SIZE
    ensures RunEnd(s, e) == end
    decreases |s| - e
  {
    if e != end {
      assert s[e..end][PACKET_SIZE..] == s[e + PACKET_SIZE..end];
      AlignedRun(s, e + PACKET_SIZE, end);
    }
  }

  lemma {:induction false} PacketsConcat(a: Bytes, b: Bytes)
    requires IsPackets(a) && IsPackets(b)
    ensures IsPackets(a + b)
    decreases |a|
  {
    if a == [] {
      assert a + b == b;
    } else {
      assert (a + b)[PACKET_SIZE..] == a[PACKET_SIZE..] + b;
      PacketsConcat(a[PACKET_SIZE..], b);
    }
  }

  /** The flat reading of IsPackets: a multiple of 188 bytes with 0x47 at every packet start. */
  lemma {:induction false} PacketsFlat(s: Bytes)
    ensures IsPackets(s) <==>
              |s| % PACKET_SIZE == 0
              && forall k: nat :: k < |s| && k % PACKET_SIZE == 0 ==> s[k] == SYNC_BYTE
    decreases |s|
  {
    if |s| < PACKET_SIZE {
    } else {
      var t := s[PACKET_SIZE..];
      PacketsFlat(t);
      if IsPackets(s) {
        forall k: nat | k < |s| && k % PACKET_SIZE == 0 ensures s[k] == SYNC_BYTE {
          if k != 0 {
            assert s[k] == t[k - PACKET_SIZE] && (k - PACKET_SIZE) % PACKET_SIZE == 0;
          }
        }
      } else if |s| % PACKET_SIZE == 0 && s[0] == SYNC_BYTE {
        assert !IsPackets(t);
        var k: nat :| k < |t| && k % PACKET_SIZE == 0 && t[k] != SYNC_BYTE;
        assert s[k + PACKET_SIZE] == t[k] && (k + PACKET_SIZE) % PACKET_SIZE == 0;
      }
    }
  }

  /** Cutting whole packets at a packet boundary leaves whole packets on both sides. */
  lemma {:induction false} PacketsCut(s: Bytes, k: nat)
    requires IsPackets(s) && k <= |s| && k % PACKET_SIZE == 0
    ensures IsPackets(s[..k]) && IsPackets(s[k..])
  {
    hide IsPackets;
    if k == 0 {
      assert s[0..] == s && s[..0] == [];
      NoPackets();
    } else {
      assert PACKET_SIZE <= k;
      var t := s[PACKET_SIZE..];
      FirstPacket(s);
      PacketsCut(t, k - PACKET_SIZE);
      assert s[..k][PACKET_SIZE..] == t[..k - PACKET_SIZE] && s[..k][0] == s[0];
      FirstPacket(s[..k]);
      assert s[k..] == t[k - PACKET_SIZE..];
    }
  }

  lemma FirstPacket(s: Bytes)
    requires PACKET_SIZE <= |s|
    ensures IsPackets(s) <==> s[0] == SYNC_BYTE && IsPackets(s[PACKET_SIZE..])
  {
  }

  /** The 13-bit packet identifier. */
  function Pid(pkt: Bytes): (pid: nat)
    ensures pid < 0x2000
  {
    if |pkt| < 3 then 0
    else
      assert pkt[1] & 0x1f <= 0x1f;
      (pkt[1] & 0x1f) as nat * 256 + pkt[2] as nat
  }

  predicate HasPusi(pkt: Bytes) {
    |pkt| > 1 && pkt[1] & 0x40 != 0
  }

  /** The adaptation field's random_access_indicator. */
  predicate HasRandomAccess(pkt: Bytes) {
    6 <= |pkt| && pkt[0] == SYNC_BYTE
    && ((pkt[3] >> 4) & 0x3 == 2 || (pkt[3] >> 4) & 0x3 == 3)
    && 1 <= pkt[4] as int && 5 + pkt[4] as int <= |pkt|
    && pkt[5] & 0x40 != 0
  }
}
