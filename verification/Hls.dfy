/** HLS playlists: numbering of segments and which of them are broadcast
    (internal/core/stream/hls.go; RFC 8216). */
module Hls {
  import opened Seqs
  import opened Text

  datatype Segment = Segment(uri: string, seqNo: int)

  const MAX_SEEN := 256
  const MAX_INT64 := 0x7FFF_FFFF_FFFF_FFFF
  const MIN_INT64 := -0x8000_0000_0000_0000

  // ---------------------------------------------------------------- the bounded set

  /** The newest `max` of the remembered URIs. */
  function Newest(order: seq<string>, max: nat): seq<string> {
    if |order| > max then order[|order| - max..] else order
  }

  function Remember(order: seq<string>, uri: string, max: nat): seq<string> {
    if uri in order then order else Newest(order + [uri], max)
  }

  /** seenSet: a set with a first-in-first-out bound. */
  class SeenSet {
    const max: nat
    var items: set<string>
    var order: seq<string>

    ghost predicate Valid()
      reads this
    {
      && NoRepeats(order) && |order| <= max
      && forall uri :: uri in items <==> uri in order
    }

    constructor (max: nat)
      ensures Valid() && this.max == max && order == []
    {
      this.max, items, order := max, {}, [];
    }

    predicate Has(uri: string)
      requires Valid()
      reads this
      ensures Has(uri) <==> uri in order
    {
      uri in items
    }

    method Add(uri: string)
      requires Valid()
      modifies this
      ensures Valid() && order == Remember(old(order), uri, max)
    {
      if uri !in items {
        items := items + {uri};
        order := order + [uri];
        ghost var all := order;
        ghost var cut := 0;
        while |order| > max
          invariant cut <= |all| && order == all[cut..] && NoRepeats(order)
          invariant forall u :: u in items <==> u in order
          invariant cut > 0 ==> |order| >= max
          decreases |order|
        {
          var oldest := order[0];
          assert order == [oldest] + order[1..];
          order := order[1..];
          items := items - {oldest};
          cut := cut + 1;
        }
      }
    }
  }

  // ---------------------------------------------------------------- selection

  /** What one pump run knows: remembered URIs, the highest number, what it broadcast. */
  datatype Progress = Progress(order: seq<string>, lastSeq: int, out: seq<Segment>)

  const FRESH := Progress([], -1, [])

  function Max(a: int, b: int): int {
    if a > b then a else b
  }

  predicate Skipped(p: Progress, s: Segment) {
    s.uri in p.order || (s.seqNo > 0 && p.lastSeq >= 0 && s.seqNo <= p.lastSeq)
  }

  /** A segment ahead of the live edge when the run starts: noted, not broadcast. */
  function Pass(p: Progress, s: Segment): Progress {
    Progress(Remember(p.order, s.uri, MAX_SEEN), Max(p.lastSeq, s.seqNo), p.out)
  }

  function Take(p: Progress, s: Segment): Progress {
    if s.uri in p.order then p
    else if Skipped(p, s) then p.(order := Remember(p.order, s.uri, MAX_SEEN))
    else Progress(Remember(p.order, s.uri, MAX_SEEN), Max(p.lastSeq, s.seqNo), p.out + [s])
  }

  function PassAll(p: Progress, segs: seq<Segment>, n: nat): Progress
    requires n <= |segs|
  {
    if n == 0 then p else Pass(PassAll(p, segs, n - 1), segs[n - 1])
  }

  function TakeRange(p: Progress, segs: seq<Segment>, from: nat, to: nat): Progress
    requires from <= to <= |segs|
  {
    if from == to then p else Take(TakeRange(p, segs, from, to - 1), segs[to - 1])
  }

  /** A poll of the playlist URL. */
  datatype Poll =
    | Failed                                        // fetch or parse error
    | Master(hasVariants: bool)
    | Media(segments: seq<Segment>, endList: bool)

  datatype Outcome = Running | FetchError | NoVariants | EmptyEnd | Unplayable | StreamEnded

  /** Where a run starts in its first media playlist with segments: at the newest one, unless
      the playlist has ended. */
  function Edge(started: bool, poll: Poll): nat
    requires poll.Media? && poll.segments != []
  {
    if started || poll.endList then 0 else |poll.segments| - 1
  }

  function AfterMedia(p: Progress, started: bool, poll: Poll): Progress
    requires poll.Media? && poll.segments != []
  {
    var e := Edge(started, poll);
    TakeRange(PassAll(p, poll.segments, e), poll.segments, e, |poll.segments|)
  }

  /** The run over polls that all succeed, with every selected segment playable. */
  function Selected(polls: seq<Poll>): (Progress, bool) {
    if polls == [] then (FRESH, false)
    else
      var before := Selected(polls[..|polls| - 1]);
      var poll := polls[|polls| - 1];
      if poll.Media? && poll.segments != []
      then (AfterMedia(before.0, before.1, poll), true) else before
  }

  // ---------------------------------------------------------------- strictly increasing

  /** Broadcast segments with positive numbers are in strictly increasing order. */
  predicate Increasing(out: seq<Segment>) {
    forall i, j :: 0 <= i < j < |out| && out[i].seqNo > 0 && out[j].seqNo > 0 ==> out[i].seqNo < out[j].seqNo
  }

  predicate ProgressOk(p: Progress) {
    && Increasing(p.out) && (forall i :: 0 <= i < |p.out| ==> p.out[i].seqNo <= p.lastSeq)
    && p.lastSeq >= -1 && NoRepeats(p.order) && |p.order| <= MAX_SEEN
  }

  lemma RememberKeeps(order: seq<string>, uri: string, max: nat)
    requires NoRepeats(order) && |order| <= max
    ensures NoRepeats(Remember(order, uri, max)) && |Remember(order, uri, max)| <= max
  {
  }

  lemma TakeKeeps(p: Progress, s: Segment)
    requires ProgressOk(p)
    ensures ProgressOk(Take(p, s)) && ProgressOk(Pass(p, s))
  {
    RememberKeeps(p.order, s.uri, MAX_SEEN);
    hide Remember;
  }

  // ---------------------------------------------------------------- the pump

  /** Some listing of the segment was played (or was not, for `played` false). */
  ghost predicate Listed(polls: seq<Poll>, playable: (nat, nat) -> bool, s: Segment, played: bool) {
    exists k: nat, i: nat :: ListedAt(polls, k, i, s) && playable(k, i) == played
  }

  predicate ListedAt(polls: seq<Poll>, k: nat, i: nat, s: Segment) {
    k < |polls| && polls[k].Media? && i < |polls[k].segments| && polls[k].segments[i] == s
  }

  predicate HasSegments(p: Poll) {
    p.Media? && p.segments != []
  }

  /** A poll after which there is no other. */
  predicate IsLast(p: Poll) {
    p.Failed? || p == Master(false) || (p.Media? && p.endList)
  }

  /** Poll `at` ends the run, and how; `cut` is the segment that could not be played. */
  predicate EndsAt(polls: seq<Poll>, everReady: bool, at: nat, cut: seq<Segment>, outcome: Outcome) {
    && at <= |polls| && (forall k :: 0 <= k < at ==> !IsLast(polls[k]))
    && (outcome == Running <==> at == |polls|)
    && (at < |polls| ==> IsLast(polls[at]) || (HasSegments(polls[at]) && cut != []))
    && (outcome == FetchError <==> at < |polls| && polls[at].Failed?)
    && (outcome == NoVariants <==> at < |polls| && polls[at] == Master(false))
    && (outcome == EmptyEnd <==> at < |polls| && polls[at] == Media([], true) && !everReady)
    && (outcome == Unplayable <==> cut != [])
    && (cut != [] ==> at < |polls| && HasSegments(polls[at]))
    && (outcome == StreamEnded <==>
          at < |polls| && cut == [] && polls[at].Media? && polls[at].endList && (polls[at].segments == [] ==> everReady))
  }

  /** pumpHLS over the polls it gets to see, `used` of which it goes through. `playable` stands
      for the container check, the resolution of the URL and the fetch of a poll's i-th segment;
      `cut` is the segment that failed, which may have been broadcast in part. */
  method PumpHls(polls: seq<Poll>, playable: (nat, nat) -> bool, everReady: bool)
    returns (out: seq<Segment>, cut: seq<Segment>, outcome: Outcome, ghost used: nat, ghost at: nat)
    ensures Increasing(out + cut) && used <= |polls|
    ensures EndsAt(polls, everReady, at, cut, outcome) && used == if at < |polls| && HasSegments(polls[at]) then at + 1 else at
    ensures |cut| == if outcome == Unplayable then 1 else 0
    ensures (forall s :: s in out ==> Listed(polls, playable, s, true)) && forall s :: s in cut ==> Listed(polls, playable, s, false)
    ensures out + cut <= Selected(polls[..used]).0.out
    ensures outcome != Unplayable ==> out == Selected(polls[..used]).0.out
  {
    hide Take, Pass, ProgressOk, Increasing, AfterMedia, Selected, Listed, ListedIn;
    SelectedStep([]);
    var seen := new SeenSet(MAX_SEEN);
    var lastSeq := -1;
    var started := false;
    out, cut, used, at := [], [], 0, 0;
    FreshOk();
    assert polls[..0] == [];
    for k := 0 to |polls|
      invariant seen.Valid() && seen.max == MAX_SEEN && used == k && at == k && cut == []
      invariant forall m :: 0 <= m < k ==> !IsLast(polls[m])
      invariant fresh(seen)
      invariant ProgressOk(Progress(seen.order, lastSeq, out))
      invariant forall s :: s in out ==> Listed(polls, playable, s, true)
      invariant Selected(polls[..k]) == (Progress(seen.order, lastSeq, out), started)
    {
      OkIsIncreasing(seen.order, lastSeq, out);
      assert out + [] == out;
      var poll := polls[k];
      assert polls[..k + 1][..k] == polls[..k];
      SelectedStep(polls[..k + 1]);
      match poll {
        case Failed =>
          return out, [], FetchError, used, at;
        case Master(hasVariants) =>
          if !hasVariants {
            return out, [], NoVariants, used, at;
          }
        case Media(segments, endList) =>
          if segments == [] {
            if endList {
              return out, [], if everReady then StreamEnded else EmptyEnd, used, at;
            }
          } else {
            ghost var before := out;
            out, lastSeq, cut := PumpMedia(seen, lastSeq, out, started, poll, (i: nat) => playable(k, i));
            NowListed(polls, playable, k, before, out, cut);
            used := k + 1;
            assert out + [] == out;
            if cut != [] {
              return out, cut, Unplayable, used, at;
            }
            started := true;
            if endList {
              return out, [], StreamEnded, used, at;
            }
          }
      }
      used, at := k + 1, k + 1;
    }
    assert polls[..|polls|] == polls;
    OkIsIncreasing(seen.order, lastSeq, out);
    assert out + [] == out;
    outcome := Running;
  }

  ghost predicate ListedIn(segs: seq<Segment>, playable: nat -> bool, s: Segment, played: bool) {
    exists i: nat :: i < |segs| && segs[i] == s && playable(i) == played
  }

  lemma NowListed(polls: seq<Poll>, playable: (nat, nat) -> bool, k: nat, before: seq<Segment>, out: seq<Segment>, cut: seq<Segment>)
    requires k < |polls| && polls[k].Media? && forall s :: s in before ==> Listed(polls, playable, s, true)
    requires forall s :: s in out ==> s in before || ListedIn(polls[k].segments, (i: nat) => playable(k, i), s, true)
    requires forall s :: s in cut ==> ListedIn(polls[k].segments, (i: nat) => playable(k, i), s, false)
    ensures forall s :: s in out ==> Listed(polls, playable, s, true)
    ensures forall s :: s in cut ==> Listed(polls, playable, s, false)
  {
    forall s, played | ListedIn(polls[k].segments, (i: nat) => playable(k, i), s, played) ensures Listed(polls, playable, s, played) {
      var i: nat :| i < |polls[k].segments| && polls[k].segments[i] == s && playable(k, i) == played;
      assert ListedAt(polls, k, i, s);
    }
  }

  lemma TakeIs(p: Progress, s: Segment)
    ensures Take(p, s) == if s.uri in p.order then p
                          else if Skipped(p, s) then p.(order := Remember(p.order, s.uri, MAX_SEEN))
                          else Progress(Remember(p.order, s.uri, MAX_SEEN), Max(p.lastSeq, s.seqNo), p.out + [s])
  {
  }

  lemma {:induction false} TakeOnlyAdds(p: Progress, segs: seq<Segment>, from: nat, mid: nat, to: nat)
    requires from <= mid <= to <= |segs|
    ensures TakeRange(p, segs, from, mid).out <= TakeRange(p, segs, from, to).out
  {
    hide Remember;
    if mid < to {
      TakeOnlyAdds(p, segs, from, mid, to - 1);
    }
  }

  lemma FreshOk()
    ensures ProgressOk(FRESH)
  {
  }

  lemma OkIsIncreasing(order: seq<string>, lastSeq: int, out: seq<Segment>)
    requires ProgressOk(Progress(order, lastSeq, out))
    ensures Increasing(out)
  {
  }

  /** One media playlist: up to the live edge noted, from there on broadcast if new. */
  method PumpMedia(seen: SeenSet, last: int, before: seq<Segment>, started: bool, poll: Poll, playable: nat -> bool)
    returns (out: seq<Segment>, lastSeq: int, cut: seq<Segment>)
    requires seen.Valid() && seen.max == MAX_SEEN && poll.Media? && poll.segments != []
    requires ProgressOk(Progress(seen.order, last, before))
    modifies seen
    ensures seen.Valid() && ProgressOk(Progress(seen.order, lastSeq, out)) && Increasing(out + cut) && |cut| <= 1
    ensures (forall s :: s in out ==> s in before || ListedIn(poll.segments, playable, s, true))
            && forall s :: s in cut ==> ListedIn(poll.segments, playable, s, false)
    ensures cut == [] ==> Progress(seen.order, lastSeq, out) == AfterMedia(Progress(old(seen.order), last, before), started, poll)
    ensures out + cut <= AfterMedia(Progress(old(seen.order), last, before), started, poll).out
  {
    hide Remember, ProgressOk, Increasing, Take;
    ghost var p := Progress(seen.order, last, before);
    var segs := poll.segments;
    var edge := if started || poll.endList then 0 else |segs| - 1;
    out, lastSeq, cut := before, last, [];
    for i := 0 to edge
      invariant seen.Valid() && ProgressOk(Progress(seen.order, lastSeq, out))
      invariant out == before && Progress(seen.order, lastSeq, out) == PassAll(p, segs, i)
    {
      TakeKeeps(Progress(seen.order, lastSeq, out), segs[i]);
      seen.Add(segs[i].uri);
      if segs[i].seqNo > lastSeq {
        lastSeq := segs[i].seqNo;
      }
    }
    ghost var q := PassAll(p, segs, edge);
    for i := edge to |segs|
      invariant seen.Valid() && ProgressOk(Progress(seen.order, lastSeq, out))
      invariant forall s :: s in out ==> s in before || ListedIn(segs, playable, s, true)
      invariant Progress(seen.order, lastSeq, out) == TakeRange(q, segs, edge, i) && cut == []
    {
      var seg := segs[i];
      TakeKeeps(Progress(seen.order, lastSeq, out), seg);
      TakeIs(Progress(seen.order, lastSeq, out), seg);
      TakeOnlyAdds(q, segs, edge, i + 1, |segs|);
      if !seen.Has(seg.uri) {
        if seg.seqNo > 0 && lastSeq >= 0 && seg.seqNo <= lastSeq {
          seen.Add(seg.uri);
        } else if !playable(i) {
          ghost var taken := Take(Progress(seen.order, lastSeq, out), seg);
          OkIsIncreasing(taken.order, taken.lastSeq, taken.out);
          cut := [seg];
          return;
        } else {
          out := out + [seg];
          seen.Add(seg.uri);
          if seg.seqNo > lastSeq {
            lastSeq := seg.seqNo;
          }
        }
      }
    }
    OkIsIncreasing(seen.order, lastSeq, out);
    assert out + [] == out;
  }

  // ---------------------------------------------------------------- windows over one stream

  /** Segments number lo up to hi of a stream whose n-th segment has the URI uri(n). */
  function Window(uri: int -> string, lo: int, hi: int): seq<Segment>
    requires lo <= hi
  {
    seq(hi - lo, i => Segment(uri(lo + i), lo + i))
  }

  ghost predicate Distinct(uri: int -> string) {
    forall m, n :: uri(m) == uri(n) ==> m == n
  }

  /** Only segments up to the highest number are remembered. */
  predicate RemembersPast(p: Progress, uri: int -> string) {
    forall u :: u in p.order ==> exists n :: 1 <= n <= p.lastSeq && u == uri(n)
  }

  predicate AtEdge(p: Progress, uri: int -> string, first: int, next: int) {
    1 <= first < next && p.lastSeq == next - 1 && p.out == Window(uri, first, next) && RemembersPast(p, uri)
  }

  lemma {:induction false} PassWindow(uri: int -> string, lo: int, hi: int, n: nat)
    requires 1 <= lo < hi && n <= hi - lo
    ensures var p := PassAll(FRESH, Window(uri, lo, hi), n);
            RemembersPast(p, uri) && p.out == [] && p.lastSeq == if n == 0 then -1 else lo + n - 1
  {
    if n > 0 {
      PassWindow(uri, lo, hi, n - 1);
      var p := PassAll(FRESH, Window(uri, lo, hi), n - 1);
      assert Window(uri, lo, hi)[n - 1] == Segment(uri(lo + n - 1), lo + n - 1);
      RememberPast(p, uri, lo + n - 1);
    }
  }

  lemma RememberPast(p: Progress, uri: int -> string, n: int)
    requires RemembersPast(p, uri) && n >= 1
    ensures RemembersPast(Progress(Remember(p.order, uri(n), MAX_SEEN), Max(p.lastSeq, n), p.out), uri)
  {
    var q := Progress(Remember(p.order, uri(n), MAX_SEEN), Max(p.lastSeq, n), p.out);
    forall u | u in q.order ensures exists m :: 1 <= m <= q.lastSeq && u == uri(m) {
      assert u in p.order || u == uri(n);
      if u in p.order {
        var m :| 1 <= m <= p.lastSeq && u == uri(m);
      }
    }
  }

  /** A window that overlaps or adjoins what came before adds exactly what is new. */
  lemma {:induction false} TakeWindow(p: Progress, uri: int -> string, first: int, next: int, lo: int, hi: int, to: nat)
    requires Distinct(uri) && AtEdge(p, uri, first, next) && 1 <= lo <= next && lo < hi && to <= hi - lo
    ensures AtEdge(TakeRange(p, Window(uri, lo, hi), 0, to), uri, first, Max(next, lo + to))
  {
    hide Remember;
    if to > 0 {
      TakeWindow(p, uri, first, next, lo, hi, to - 1);
      var q := TakeRange(p, Window(uri, lo, hi), 0, to - 1);
      var n := lo + to - 1;
      assert Window(uri, lo, hi)[to - 1] == Segment(uri(n), n);
      RememberPast(q, uri, n);
      if n > q.lastSeq {
        assert Window(uri, first, n + 1) == Window(uri, first, n) + [Segment(uri(n), n)];
      }
    }
  }

  /** Each poll shows a window; none starts past what was already seen. */
  predicate Sliding(wins: seq<(int, int)>) {
    && (forall i :: 0 <= i < |wins| ==> 1 <= wins[i].0 < wins[i].1)
    && forall i :: 0 < i < |wins| ==> wins[i].0 <= Reach(wins[..i])
  }

  function Reach(wins: seq<(int, int)>): int {
    if wins == [] then 1 else Max(Reach(wins[..|wins| - 1]), wins[|wins| - 1].1)
  }

  function Polls(uri: int -> string, wins: seq<(int, int)>): seq<Poll>
    requires forall i :: 0 <= i < |wins| ==> wins[i].0 < wins[i].1
  {
    seq(|wins|, i requires 0 <= i < |wins| => Media(Window(uri, wins[i].0, wins[i].1), false))
  }

  /** Sliding windows over one live stream are stitched together: from the newest segment of
      the first window on, every segment is broadcast once, in order, without a gap. */
  lemma {:induction false} WindowsAreStitched(uri: int -> string, wins: seq<(int, int)>)
    requires Distinct(uri) && Sliding(wins) && wins != []
    ensures Selected(Polls(uri, wins)).1
    ensures AtEdge(Selected(Polls(uri, wins)).0, uri, wins[0].1 - 1, Reach(wins))
    decreases |wins|
  {
    hide Take, Pass, AtEdge, AfterMedia, TakeRange, Window, Distinct, Sliding, Polls, Selected, Reach;
    SlidingBounds(wins);
    var n := |wins| - 1;
    LastPoll(uri, wins);
    SelectedStep(Polls(uri, wins));
    ReachStep(wins);
    if n == 0 {
      assert wins[..0] == [] && Polls(uri, wins)[..0] == [];
      FirstWindow(uri, wins[0].0, wins[0].1);
    } else {
      WindowsAreStitched(uri, wins[..n]);
      StitchOne(Selected(Polls(uri, wins[..n])).0, uri, wins[0].1 - 1, Reach(wins[..n]), wins[n].0, wins[n].1);
    }
  }

  lemma SlidingBounds(wins: seq<(int, int)>)
    requires Sliding(wins) && wins != []
    ensures forall i :: 0 <= i < |wins| ==> 1 <= wins[i].0 < wins[i].1
    ensures |wins| > 1 ==> Sliding(wins[..|wins| - 1]) && wins[|wins| - 1].0 <= Reach(wins[..|wins| - 1])
  {
    if |wins| > 1 {
      SlidingPrefix(wins);
    }
  }

  lemma StitchOne(p: Progress, uri: int -> string, first: int, next: int, lo: int, hi: int)
    requires Distinct(uri) && AtEdge(p, uri, first, next) && 1 <= lo <= next && lo < hi
    ensures AtEdge(AfterMedia(p, true, Media(Window(uri, lo, hi), false)), uri, first, Max(next, hi))
  {
    hide AtEdge, TakeRange, AfterMedia, Window, Distinct;
    WindowSize(uri, lo, hi);
    TakeWindow(p, uri, first, next, lo, hi, hi - lo);
    LaterWindow(p, uri, lo, hi);
  }

  lemma SelectedStep(polls: seq<Poll>)
    ensures Selected([]) == (FRESH, false)
    ensures polls != [] ==>
              var n := |polls| - 1; var before := Selected(polls[..n]);
              Selected(polls) == if polls[n].Media? && polls[n].segments != [] then (AfterMedia(before.0, before.1, polls[n]), true) else before
  {
  }

  lemma ReachStep(wins: seq<(int, int)>)
    ensures Reach([]) == 1
    ensures wins != [] ==> Reach(wins) == Max(Reach(wins[..|wins| - 1]), wins[|wins| - 1].1)
  {
  }

  lemma LastPoll(uri: int -> string, wins: seq<(int, int)>)
    requires wins != [] && forall i :: 0 <= i < |wins| ==> wins[i].0 < wins[i].1
    ensures var n := |wins| - 1; var polls := Polls(uri, wins);
            |polls| == n + 1 && polls[n] == Media(Window(uri, wins[n].0, wins[n].1), false) && polls[..n] == Polls(uri, wins[..n])
            && |Window(uri, wins[n].0, wins[n].1)| == wins[n].1 - wins[n].0
  {
    hide Window;
    WindowSize(uri, wins[|wins| - 1].0, wins[|wins| - 1].1);
  }

  lemma SlidingPrefix(wins: seq<(int, int)>)
    requires Sliding(wins) && |wins| > 1
    ensures Sliding(wins[..|wins| - 1])
  {
    hide Reach;
    var w := wins[..|wins| - 1];
    forall i | 0 < i < |w| ensures w[i].0 <= Reach(w[..i]) {
      assert w[..i] == wins[..i];
    }
  }

  lemma WindowSize(uri: int -> string, lo: int, hi: int)
    requires lo <= hi
    ensures |Window(uri, lo, hi)| == hi - lo
  {
  }

  lemma LaterWindow(p: Progress, uri: int -> string, lo: int, hi: int)
    requires lo < hi
    ensures AfterMedia(p, true, Media(Window(uri, lo, hi), false)) == TakeRange(p, Window(uri, lo, hi), 0, hi - lo)
  {
  }

  lemma FirstWindow(uri: int -> string, lo: int, hi: int)
    requires Distinct(uri) && 1 <= lo < hi
    ensures AtEdge(AfterMedia(FRESH, false, Media(Window(uri, lo, hi), false)), uri, hi - 1, hi)
  {
    hide Remember;
    var w := Window(uri, lo, hi);
    var e: nat := hi - lo - 1;
    PassWindow(uri, lo, hi, e);
    var p := PassAll(FRESH, w, e);
    assert w[e] == Segment(uri(hi - 1), hi - 1);
    assert TakeRange(p, w, e, e) == p;
    RememberPast(p, uri, hi - 1);
    assert Window(uri, hi - 1, hi) == [w[e]];
  }

  /** A playlist that has ended is played from its first segment, and to its end. */
  lemma EndedPlaylistIsPlayedWhole(uri: int -> string, lo: int, hi: int)
    requires Distinct(uri) && 1 <= lo < hi
    ensures Selected([Media(Window(uri, lo, hi), true)]).0.out == Window(uri, lo, hi)
  {
    var w := Window(uri, lo, hi);
    WindowSize(uri, lo, hi);
    SelectedStep([Media(w, true)]);
    assert [Media(w, true)][..0] == [];
    WholeWindow(uri, lo, hi, hi - lo);
    hide TakeRange, Window;
  }

  lemma {:induction false} WholeWindow(uri: int -> string, lo: int, hi: int, n: nat)
    requires Distinct(uri) && 1 <= lo < hi && n <= hi - lo
    ensures var p := TakeRange(FRESH, Window(uri, lo, hi), 0, n);
            p.out == Window(uri, lo, lo + n) && RemembersPast(p, uri) && p.lastSeq == if n == 0 then -1 else lo + n - 1
  {
    if n > 0 {
      WholeWindow(uri, lo, hi, n - 1);
      var p := TakeRange(FRESH, Window(uri, lo, hi), 0, n - 1);
      assert Window(uri, lo, hi)[n - 1] == Segment(uri(lo + n - 1), lo + n - 1);
      RememberPast(p, uri, lo + n - 1);
      assert Window(uri, lo, lo + n) == Window(uri, lo, lo + n - 1) + [Segment(uri(lo + n - 1), lo + n - 1)];
      hide Remember;
    }
  }

  /** Once a run is going, the last window of a stream that ends is stitched on like any other. */
  lemma LastWindowIsStitched(p: Progress, uri: int -> string, first: int, next: int, lo: int, hi: int)
    requires Distinct(uri) && AtEdge(p, uri, first, next) && 1 <= lo <= next && lo < hi
    ensures AtEdge(AfterMedia(p, true, Media(Window(uri, lo, hi), true)), uri, first, Max(next, hi))
  {
    hide AtEdge, TakeRange, Window, Distinct;
    WindowSize(uri, lo, hi);
    TakeWindow(p, uri, first, next, lo, hi, hi - lo);
  }

  /** The newest URIs are the ones remembered. */
  lemma NewestAreRemembered(order: seq<string>, uri: string, max: nat)
    requires uri !in order && max > 0 && |order| <= max
    ensures var now := Remember(order, uri, max);
            now != [] && now[|now| - 1] == uri && |now| == (if |order| < max then |order| + 1 else max)
            && now == (order + [uri])[|order| + 1 - |now|..]
  {
  }

  // ---------------------------------------------------------------- by URI

  /** Every URI that the polls list. */
  predicate ListsOnly(polls: seq<Poll>, uris: set<string>) {
    forall k, i :: 0 <= k < |polls| && polls[k].Media? && 0 <= i < |polls[k].segments| ==> polls[k].segments[i].uri in uris
  }

  /** Nothing was forgotten, and what was broadcast is remembered and was broadcast once. */
  predicate AllKnown(p: Progress, uris: set<string>) {
    && NoRepeats(p.order) && (forall u :: u in p.order ==> u in uris)
    && (forall i :: 0 <= i < |p.out| ==> p.out[i].uri in p.order)
    && forall i, j :: 0 <= i < j < |p.out| ==> p.out[i].uri != p.out[j].uri
  }

  lemma RemembersAll(order: seq<string>, uri: string, uris: set<string>)
    requires NoRepeats(order) && (forall u :: u in order ==> u in uris) && uri in uris && |uris| <= MAX_SEEN
    ensures var now := Remember(order, uri, MAX_SEEN);
            NoRepeats(now) && (forall u :: u in now <==> u in order || u == uri) && forall u :: u in now ==> u in uris
  {
    if uri !in order {
      var all := order + [uri];
      DistinctSize(all);
      SubsetSize(Elements(all), uris);
    }
  }

  lemma KnownStep(p: Progress, s: Segment, uris: set<string>)
    requires AllKnown(p, uris) && s.uri in uris && |uris| <= MAX_SEEN
    ensures AllKnown(Take(p, s), uris) && AllKnown(Pass(p, s), uris)
  {
    RemembersAll(p.order, s.uri, uris);
    hide Remember, NoRepeats;
  }

  lemma {:induction false} KnownRange(p: Progress, segs: seq<Segment>, from: nat, to: nat, uris: set<string>)
    requires AllKnown(p, uris) && |uris| <= MAX_SEEN && from <= to <= |segs| && forall i :: 0 <= i < |segs| ==> segs[i].uri in uris
    ensures AllKnown(TakeRange(p, segs, from, to), uris)
  {
    hide AllKnown, Take;
    if from < to {
      KnownRange(p, segs, from, to - 1, uris);
      KnownStep(TakeRange(p, segs, from, to - 1), segs[to - 1], uris);
    }
  }

  lemma {:induction false} KnownPass(p: Progress, segs: seq<Segment>, n: nat, uris: set<string>)
    requires AllKnown(p, uris) && |uris| <= MAX_SEEN && n <= |segs| && forall i :: 0 <= i < |segs| ==> segs[i].uri in uris
    ensures AllKnown(PassAll(p, segs, n), uris)
  {
    hide AllKnown, Pass;
    if n > 0 {
      KnownPass(p, segs, n - 1, uris);
      KnownStep(PassAll(p, segs, n - 1), segs[n - 1], uris);
    }
  }

  /** As long as the polls list no more URIs than are remembered, none is broadcast twice,
      whatever numbers its segments have. */
  lemma {:induction false} NoUriTwice(polls: seq<Poll>, uris: set<string>)
    requires ListsOnly(polls, uris) && |uris| <= MAX_SEEN
    ensures AllKnown(Selected(polls).0, uris)
  {
    hide AllKnown, TakeRange, PassAll, Edge;
    if polls == [] {
      NothingKnown(uris);
    } else {
      var n := |polls| - 1;
      var poll := polls[n];
      NoUriTwice(polls[..n], uris);
      if poll.Media? && poll.segments != [] {
        var before := Selected(polls[..n]);
        var e := Edge(before.1, poll);
        EdgeInside(before.1, poll);
        KnownPass(before.0, poll.segments, e, uris);
        KnownRange(PassAll(before.0, poll.segments, e), poll.segments, e, |poll.segments|, uris);
      }
    }
  }

  lemma EdgeInside(started: bool, poll: Poll)
    requires poll.Media? && poll.segments != []
    ensures Edge(started, poll) < |poll.segments|
  {
  }

  lemma NothingKnown(uris: set<string>)
    ensures AllKnown(FRESH, uris)
  {
  }

  /** A segment without a positive number is broadcast exactly when its URI is not remembered. */
  lemma UnnumberedByUri(p: Progress, s: Segment)
    requires s.seqNo <= 0
    ensures Take(p, s).out == if s.uri in p.order then p.out else p.out + [s]
  {
  }
}
