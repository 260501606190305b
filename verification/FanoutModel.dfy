/** The fan-out of one live session as a state machine: one step per region the session
    lock protects (internal/core/stream/session.go, internal/core/stream/copy.go). */
module FanoutModel {
  import opened Seqs
  import opened MpegTs

  /** One viewer with its history. The channel is `queue`; the other sequences and
      positions record what happened: every chunk ever queued (`sent`), how many were
      received, where in the broadcast log it joined, and the run of the log it got. */
  datatype View = View(
    cap: nat, queue: seq<Bytes>, closed: bool, waitKeyframe: bool,
    sent: seq<Bytes>, taken: nat, late: bool,
    prefix: Bytes, joined: nat, start: nat, stop: nat)

  datatype Tables = Tables(pat: Bytes, pmts: map<nat, Bytes>, seenRai: bool)

  datatype State = State(
    transcode: bool, everReady: bool, tables: Tables,
    log: Bytes, bytesSent: nat, nextId: nat, attached: set<nat>, views: map<nat, View>,
    stopped: bool, stopMark: nat)   // stopMark: nextId when the session was stopped

  const NO_TABLES := Tables([], map[], false)

  // ---------------------------------------------------------------- PAT and PMT tracking

  /** The heuristic for a PMT: the first table id after the pointer field is 0x02. */
  predicate HasPmtTable(pkt: Bytes)
    requires |pkt| == PACKET_SIZE
  {
    var payload := if pkt[3] & 0x20 != 0 then 5 + pkt[4] as int else 4;
    payload < |pkt| && payload + 1 + pkt[payload] as int < |pkt|
    && pkt[payload + 1 + pkt[payload] as int] == 0x02
  }

  /** A packet the session replays to late viewers. */
  predicate IsTablePacket(pkt: Bytes) {
    |pkt| == PACKET_SIZE && pkt[0] == SYNC_BYTE && HasPusi(pkt) && (Pid(pkt) == 0 || HasPmtTable(pkt))
  }

  function Observed(t: Tables, pkt: Bytes): Tables {
    if |pkt| != PACKET_SIZE || pkt[0] != SYNC_BYTE then t
    else
      var t' := if HasRandomAccess(pkt) then t.(seenRai := true) else t;
      if !HasPusi(pkt) then t'
      else if Pid(pkt) == 0 then t'.(pat := pkt)
      else if HasPmtTable(pkt) then t'.(pmts := t'.pmts[Pid(pkt) := pkt])
      else t'
  }

  /** A sequence of table packets and nothing else. */
  predicate TablesOnly(p: Bytes)
    decreases |p|
  {
    p == [] || (PACKET_SIZE <= |p| && IsTablePacket(p[..PACKET_SIZE]) && TablesOnly(p[PACKET_SIZE..]))
  }

  function PmtBytes(order: seq<nat>, pmts: map<nat, Bytes>): Bytes
    requires forall pid :: pid in order ==> pid in pmts
  {
    if order == [] then []
    else
      assert order[0] in order;
      pmts[order[0]] + PmtBytes(order[1..], pmts)
  }

  /** The bytes a late viewer is started with: PAT, then every PMT in some map order. */
  ghost predicate IsStartup(t: Tables, out: Bytes) {
    exists order: seq<nat> ::
      multiset(order) == multiset(t.pmts.Keys)
      && (forall pid :: pid in order ==> pid in t.pmts)
      && out == t.pat + PmtBytes(order, t.pmts)
  }

  predicate TablesInv(t: Tables) {
    (t.pat == [] || IsTablePacket(t.pat)) && forall pid :: pid in t.pmts ==> IsTablePacket(t.pmts[pid])
  }

  // ---------------------------------------------------------------- one viewer

  /** Index of the first random-access packet of a whole-packet chunk, |chunk| if none. */
  function KeyframeAt(chunk: Bytes, i: nat): (k: nat)
    requires i <= |chunk|
    ensures i <= k <= |chunk|
    decreases |chunk| - i
  {
    if i + PACKET_SIZE > |chunk| then |chunk|
    else if HasRandomAccess(chunk[i..i + PACKET_SIZE]) then i
    else KeyframeAt(chunk, i + PACKET_SIZE)
  }

  /** A send that does not block: a full channel drops the viewer instead. */
  function Push(v: View, out: Bytes, stop: nat): View {
    if |v.queue| < v.cap then v.(queue := v.queue + [out], sent := v.sent + [out], stop := stop)
    else v.(closed := true)
  }

  /** What one broadcast at log position pos does to one attached viewer. */
  function Deliver(v: View, chunk: Bytes, pos: nat, startup: Bytes): View {
    var stop := pos + |chunk|;
    if !v.waitKeyframe then Push(v, chunk, stop)
    else
      var k := KeyframeAt(chunk, 0);
      if k == |chunk| then v.(start := stop, stop := stop)
      else Push(v.(waitKeyframe := false, prefix := startup, start := pos + k), startup + chunk[k..], stop)
  }

  /** A viewer that joins at log position n: it waits for a keyframe, or gets the tables. */
  function Greeted(cap: nat, n: nat, late: bool, startup: Bytes): View {
    if late then View(cap, [], false, true, [], 0, true, [], n, n, n)
    else if startup != [] && 0 < cap then View(cap, [startup], false, false, [startup], 0, false, startup, n, n, n)
    else View(cap, [], false, false, [], 0, false, [], n, n, n)
  }

  function Joined(s: State, cap: nat, startup: Bytes): View {
    Greeted(cap, |s.log|, s.transcode && s.everReady && s.tables.seenRai, startup)
  }

  // ---------------------------------------------------------------- steps

  /** Table bytes in an event are the map order that step happened to use. */
  datatype Event =
    | Join(cap: nat, startup: Bytes)                       // addViewer
    | Leave(id: nat)                                       // removeViewer
    | Receive(id: nat)                                     // one chunk taken from a channel
    | Observe(pkt: Bytes)                                  // observePacket
    | Broadcast(chunk: Bytes, startups: map<nat, Bytes>)   // broadcast
    | SwitchUpstream                                       // applyCurrentUpstreamLocked
    | MarkReady                                            // markReady
    | Stop                                                 // stop

  ghost predicate Enabled(s: State, e: Event) {
    match e
    case Join(cap, startup) => 1 <= cap && IsStartup(s.tables, startup)
    case Receive(id) => id in s.views && s.views[id].queue != []
    case Observe(pkt) => true
    case Broadcast(chunk, startups) =>
      IsPackets(chunk) && s.attached == startups.Keys
      && forall id :: id in startups ==> IsStartup(s.tables, startups[id])
    case _ => true
  }

  /** A chunk delivered at log position pos to the viewers that have an entry in startups. */
  function DeliveredTo(views: map<nat, View>, chunk: Bytes, pos: nat, startups: map<nat, Bytes>): (r: map<nat, View>)
    ensures r.Keys == views.Keys
  {
    map id | id in views :: if id in startups then Deliver(views[id], chunk, pos, startups[id]) else views[id]
  }

  function ClosedFor(views: map<nat, View>, ids: set<nat>): map<nat, View> {
    map id | id in views :: if id in ids then views[id].(closed := true) else views[id]
  }

  function StillOpen(attached: set<nat>, views: map<nat, View>): set<nat> {
    set id | id in attached && id in views && !views[id].closed
  }

  lemma DeliveredToNone(views: map<nat, View>, chunk: Bytes, pos: nat)
    ensures DeliveredTo(views, chunk, pos, map[]) == views
  {
  }

  /** The order in which viewers are served does not matter: each one is served once. */
  lemma DeliveredToOneMore(views: map<nat, View>, chunk: Bytes, pos: nat, startups: map<nat, Bytes>, id: nat)
    requires id in views && id !in startups
    ensures DeliveredTo(views, chunk, pos, startups)[id] == views[id]
    ensures forall startup :: DeliveredTo(views, chunk, pos, startups[id := startup])
              == DeliveredTo(views, chunk, pos, startups)[id := Deliver(views[id], chunk, pos, startup)]
  {
    hide Deliver;
  }

  function Apply(s: State, e: Event): State
    requires Enabled(s, e)
  {
    match e
    case Join(cap, startup) =>
      var id := s.nextId + 1;
      s.(nextId := id, attached := s.attached + {id}, views := s.views[id := Joined(s, cap, startup)])
    case Leave(id) =>
      if id in s.attached && id in s.views then
        s.(attached := s.attached - {id}, views := s.views[id := s.views[id].(closed := true)])
      else s
    case Receive(id) =>
      var v := s.views[id];
      s.(views := s.views[id := v.(queue := v.queue[1..], taken := v.taken + 1)])
    case Observe(pkt) => s.(tables := Observed(s.tables, pkt))
    case Broadcast(chunk, startups) =>
      var views := DeliveredTo(s.views, chunk, |s.log|, startups);
      s.(log := s.log + chunk, bytesSent := s.bytesSent + |chunk|, views := views,
         attached := StillOpen(s.attached, views))
    case SwitchUpstream => s.(tables := NO_TABLES)
    case MarkReady => s.(everReady := true)
    case Stop =>
      if s.stopped then s
      else s.(stopped := true, stopMark := s.nextId, attached := {}, views := ClosedFor(s.views, s.attached))
  }

  function Init(transcode: bool): State {
    State(transcode, false, NO_TABLES, [], 0, 0, {}, map[], false, 0)
  }

  /** A run: events applied in order, each enabled where it happens. */
  ghost predicate IsRun(s: State, es: seq<Event>)
    decreases |es|
  {
    es == [] || (Enabled(s, es[0]) && IsRun(Apply(s, es[0]), es[1..]))
  }

  ghost function Run(s: State, es: seq<Event>): State
    requires IsRun(s, es)
    decreases |es|
  {
    if es == [] then s else Run(Apply(s, es[0]), es[1..])
  }

  // ---------------------------------------------------------------- the invariant

  /** A random-access packet of the log starts at p. */
  predicate KeyframeIn(log: Bytes, p: nat) {
    p + PACKET_SIZE <= |log| && HasRandomAccess(log[p..p + PACKET_SIZE])
  }

  /** No packet that starts in [from, to) is a random-access packet. */
  predicate NoKeyframe(log: Bytes, from: nat, to: nat) {
    forall p: nat :: from <= p < to && p % PACKET_SIZE == 0 ==> !KeyframeIn(log, p)
  }

  /** The channel is bounded, first-in first-out, and open exactly while attached. */
  predicate ChannelInv(v: View, isAttached: bool) {
    && 1 <= v.cap && |v.queue| <= v.cap
    && v.taken <= |v.sent| && v.queue == v.sent[v.taken..]
    && (isAttached <==> !v.closed)
  }

  /** The bytes queued are start-up tables followed by one gap-free run of the log. */
  predicate ContentInv(v: View, log: Bytes) {
    && v.joined <= v.start <= v.stop <= |log|
    && v.joined % PACKET_SIZE == 0 && v.start % PACKET_SIZE == 0 && v.stop % PACKET_SIZE == 0
    && TablesOnly(v.prefix)
    && Flatten(v.sent) == v.prefix + log[v.start..v.stop]
  }

  /** Where the run starts: at the join, or at the first keyframe after it. */
  predicate StartInv(v: View, log: Bytes) {
    && (v.waitKeyframe ==> v.late && v.sent == [] && v.prefix == [] && v.start == v.stop)
    && (!v.late ==> v.start == v.joined)
    && (v.late ==> NoKeyframe(log, v.joined, v.start))
    && (v.late && !v.waitKeyframe ==> KeyframeIn(log, v.start))
  }

  predicate ViewInv(v: View, log: Bytes, isAttached: bool) {
    && ChannelInv(v, isAttached) && ContentInv(v, log) && StartInv(v, log)
    && (isAttached ==> v.stop == |log|)
  }

  predicate Inv(s: State) {
    && IsPackets(s.log) && s.bytesSent == |s.log| && |s.log| % PACKET_SIZE == 0
    && TablesInv(s.tables)
    && s.attached <= s.views.Keys
    && (forall id :: id in s.views ==> 1 <= id <= s.nextId)
    && s.stopMark <= s.nextId
    && (s.stopped ==> forall id :: id in s.attached ==> s.stopMark < id)
    && forall id :: id in s.views ==> ViewInv(s.views[id], s.log, id in s.attached)
  }
}
