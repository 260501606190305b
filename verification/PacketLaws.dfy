/** What packet headers say and what extraction must hand on, each said without the code that
    reads it (ISO/IEC 13818-1, sections 2.4.3.2 to 2.4.3.5). */
module PacketLaws {
  import opened MpegTs
  import opened FanoutModel

  // ---------------------------------------------------------------- headers

  /** The fields of a packet header that matter here. */
  datatype Header = Header(error: bool, unitStart: bool, priority: bool, pid: bv13, scrambling: bv2, adaptation: bv2, counter: bv4)

  function Bit(b: bool, mask: bv8): bv8 {
    if b then mask else 0
  }

  /** The four header bytes. */
  function HeaderBytes(h: Header): Bytes {
    [SYNC_BYTE,
     Bit(h.error, 0x80) | Bit(h.unitStart, 0x40) | Bit(h.priority, 0x20) | (h.pid >> 8) as bv8,
     (h.pid & 0xff) as bv8,
     ((h.scrambling as bv8) << 6) | ((h.adaptation as bv8) << 4) | (h.counter as bv8)]
  }

  lemma HighBits(h: Header)
    ensures HeaderBytes(h)[1] & 0x1f == (h.pid >> 8) as bv8
  {
    assert (h.pid >> 8) as bv8 & 0x1f == (h.pid >> 8) as bv8;
  }

  lemma TwoParts(pid: bv13)
    ensures (pid >> 8) as bv8 as nat * 256 + (pid & 0xff) as bv8 as nat == pid as nat
  {
    assert (pid >> 8) as nat == pid as nat / 256 && (pid & 0xff) as nat == pid as nat % 256;
  }

  lemma HeaderPid(h: Header, rest: Bytes)
    ensures Pid(HeaderBytes(h) + rest) == h.pid as nat
  {
    HighBits(h);
    TwoParts(h.pid);
    var pkt := HeaderBytes(h) + rest;
    assert pkt[1] == HeaderBytes(h)[1] && pkt[2] == HeaderBytes(h)[2] && HeaderBytes(h)[2] == (h.pid & 0xff) as bv8;
    hide HeaderBytes;
  }

  lemma HeaderUnitStart(h: Header, rest: Bytes)
    ensures HasPusi(HeaderBytes(h) + rest) <==> h.unitStart
  {
    var pkt := HeaderBytes(h) + rest;
    assert pkt[1] == HeaderBytes(h)[1];
  }

  /** The random-access flag of a packet with an adaptation field of the given length. */
  lemma HeaderRandomAccess(h: Header, length: bv8, flags: bv8, rest: Bytes)
    ensures HasRandomAccess(HeaderBytes(h) + [length, flags] + rest) <==>
              (h.adaptation == 2 || h.adaptation == 3) && 1 <= length as nat <= 1 + |rest| && flags & 0x40 != 0
  {
    var pkt := HeaderBytes(h) + [length, flags] + rest;
    assert pkt[0] == SYNC_BYTE && pkt[3] == HeaderBytes(h)[3] && pkt[4] == length && pkt[5] == flags;
  }

  /** A packet's adaptation field, if its header announces one. */
  predicate IsField(h: Header, field: Bytes) {
    if h.adaptation == 2 || h.adaptation == 3 then field != [] && field[0] as nat == |field| - 1 else field == []
  }

  /** A packet that starts a section is a program map exactly when the table id behind the
      pointer says so. */
  lemma HeaderTable(h: Header, field: Bytes, pointer: bv8, skipped: Bytes, table: bv8, rest: Bytes)
    requires IsField(h, field) && |skipped| == pointer as nat
    requires |field| + |skipped| + |rest| == PACKET_SIZE - 6
    ensures HasPmtTable(HeaderBytes(h) + field + [pointer] + skipped + [table] + rest) <==> table == 2
  {
    var pkt := HeaderBytes(h) + field + [pointer] + skipped + [table] + rest;
    assert pkt[3] == HeaderBytes(h)[3];
    FieldFlag(h);
    hide HeaderBytes;
    assert field != [] ==> pkt[4] == field[0];
    assert pkt[4 + |field|] == pointer && pkt[4 + |field| + 1 + |skipped|] == table;
  }

  lemma FieldFlag(h: Header)
    ensures HeaderBytes(h)[3] & 0x20 != 0 <==> h.adaptation == 2 || h.adaptation == 3
  {
  }

  // ---------------------------------------------------------------- extraction

  /** The first sync byte with a whole packet behind it is handed on at once, wherever it is. */
  lemma FirstPacketIsHandedOn(data: Bytes, i: nat)
    requires i + PACKET_SIZE <= |data| && data[i] == SYNC_BYTE && forall k :: 0 <= k < i ==> data[k] != SYNC_BYTE
    ensures data[i..i + PACKET_SIZE] <= Extracted(data).0
  {
    assert FirstSync(data, 0) == i;
    RunGoesOn(data, i);
  }

  lemma RunGoesOn(data: Bytes, e: nat)
    requires e + PACKET_SIZE <= |data| && data[e] == SYNC_BYTE
    ensures e + PACKET_SIZE <= RunEnd(data, e)
  {
  }

  /** Never more than a packet's worth is carried over from bytes without a sync byte, and what
      is carried behind a run is all that follows it. */
  lemma CarryIsTheRest(data: Bytes)
    ensures (forall k :: 0 <= k < |data| ==> data[k] != SYNC_BYTE) ==> Extracted(data).0 == [] && |Extracted(data).1| < PACKET_SIZE
    ensures |Extracted(data).1| <= |data| && Extracted(data).1 == data[|data| - |Extracted(data).1|..]
    ensures var (run, carry) := Extracted(data);
            |run| + |carry| <= |data| && run == data[|data| - |carry| - |run|..|data| - |carry|]
  {
    var i := FirstSync(data, 0);
    if i < |data| {
      var end := RunEnd(data, i);
      assert Extracted(data).0 == data[i..end] && Extracted(data).1 == data[end..];
    }
  }
}
