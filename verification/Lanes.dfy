/** Packing a channel's programmes into lanes that do not overlap (static/js/state.js). */
module Lanes {
  import opened Seqs
  import opened StableSorting

  datatype Programme = Programme(start: int, stop: int, title: string)

  datatype Laid = Laid(programme: Programme, lane: nat)

  predicate Before(a: Programme, b: Programme) {
    a.start < b.start || (a.start == b.start && a.stop <= b.stop)
  }

  /** Half-open intervals. */
  predicate Live(p: Programme, t: int) {
    p.start <= t < p.stop
  }

  predicate Proper(ps: seq<Programme>) {
    forall i :: 0 <= i < |ps| ==> ps[i].start < ps[i].stop
  }

  function LiveCount(ps: seq<Programme>, t: int): nat {
    if ps == [] then 0
    else LiveCount(ps[..|ps| - 1], t) + if Live(ps[|ps| - 1], t) then 1 else 0
  }

  /** n is the larger of 1 and the most programmes live at one instant. */
  ghost predicate IsPeak(ps: seq<Programme>, n: nat) {
    && n >= 1
    && (forall t :: LiveCount(ps, t) <= n)
    && (n == 1 || exists t :: LiveCount(ps, t) == n)
  }

  /** Programmes in one lane follow one another. */
  predicate LanesOk(ps: seq<Programme>, lanes: seq<nat>)
    requires |ps| == |lanes|
  {
    forall i, j :: 0 <= i < |ps| && 0 <= j < |ps| && i != j && lanes[i] == lanes[j] ==>
      ps[i].stop <= ps[j].start || ps[j].stop <= ps[i].start
  }

  // ---------------------------------------------------------------- counting

  function LiveSet(ps: seq<Programme>, t: int): set<int> {
    set i | 0 <= i < |ps| && Live(ps[i], t)
  }

  lemma {:induction false} LiveSetSize(ps: seq<Programme>, t: int)
    ensures |LiveSet(ps, t)| == LiveCount(ps, t)
  {
    if ps != [] {
      var n := |ps| - 1;
      LiveSetSize(ps[..n], t);
      assert LiveSet(ps, t) == LiveSet(ps[..n], t) + if Live(ps[n], t) then {n} else {};
    }
  }

  lemma {:induction false} LiveConcat(a: seq<Programme>, b: seq<Programme>, t: int)
    ensures LiveCount(a + b, t) == LiveCount(a, t) + LiveCount(b, t)
  {
    if b == [] {
      assert a + b == a;
    } else {
      var n := |b| - 1;
      LiveConcat(a, b[..n], t);
      assert (a + b)[..|a| + n] == a + b[..n];
    }
  }

  lemma {:induction false} LiveInsert(x: Programme, s: seq<Programme>, t: int)
    ensures LiveCount(Insert(x, s, Before), t) == LiveCount([x] + s, t)
  {
    if s != [] && !Before(x, s[0]) {
      LiveInsert(x, s[1..], t);
      LiveConcat([s[0]], Insert(x, s[1..], Before), t);
      LiveConcat([x], s[1..], t);
      LiveConcat([s[0]], s[1..], t);
      LiveConcat([x], s, t);
      assert s == [s[0]] + s[1..];
    }
  }

  lemma {:induction false} LiveSorted(s: seq<Programme>, t: int)
    ensures LiveCount(StableSort(s, Before), t) == LiveCount(s, t)
  {
    if s != [] {
      LiveSorted(s[1..], t);
      LiveInsert(s[0], StableSort(s[1..], Before), t);
      LiveConcat([s[0]], StableSort(s[1..], Before), t);
      LiveConcat([s[0]], s[1..], t);
      assert s == [s[0]] + s[1..];
    }
  }

  /** Distinct lanes below n number at most n. */
  lemma {:induction false} Pigeonhole(s: set<int>, lanes: seq<nat>, n: nat)
    requires forall i :: i in s ==> 0 <= i < |lanes| && lanes[i] < n
    requires forall i, j :: i in s && j in s && lanes[i] == lanes[j] ==> i == j
    ensures |s| <= n
    decreases n
  {
    if s != {} {
      if n == 0 {
        var i := Member(s);
        assert false;
      } else if i :| i in s && lanes[i] == n - 1 {
        Pigeonhole(s - {i}, lanes, n - 1);
      } else {
        Pigeonhole(s, lanes, n - 1);
      }
    }
  }

  /** Any assignment without overlaps uses as many lanes as programmes are live at once. */
  lemma LanesCoverLive(ps: seq<Programme>, lanes: seq<nat>, n: nat, t: int)
    requires |ps| == |lanes| && LanesOk(ps, lanes) && forall i :: 0 <= i < |lanes| ==> lanes[i] < n
    ensures LiveCount(ps, t) <= n
  {
    LiveSetSize(ps, t);
    Pigeonhole(LiveSet(ps, t), lanes, n);
  }

  /** Distinct programmes all live at t are at most the live ones. */
  lemma LiveAtLeast(ps: seq<Programme>, t: int, some: seq<int>)
    requires NoRepeats(some) && forall k :: 0 <= k < |some| ==> 0 <= some[k] < |ps| && Live(ps[some[k]], t)
    ensures LiveCount(ps, t) >= |some|
  {
    DistinctSize(some);
    LiveSetSize(ps, t);
    assert Elements(some) <= LiveSet(ps, t);
    SubsetSize(Elements(some), LiveSet(ps, t));
  }

  lemma BeforeIsOrder()
    ensures TotalPreorder(Before)
  {
  }

  // ---------------------------------------------------------------- the greedy packing

  /** What the loop knows of the lanes: who is last in each, and no earlier overlap. */
  predicate Packed(ps: seq<Programme>, lanes: seq<nat>, ends: seq<int>, last: seq<int>) {
    && |lanes| <= |ps| && |last| == |ends|
    && (forall i :: 0 <= i < |lanes| ==> lanes[i] < |ends| && ps[i].stop <= ends[lanes[i]])
    && (forall l :: 0 <= l < |ends| ==> 0 <= last[l] < |lanes| && lanes[last[l]] == l && ps[last[l]].stop == ends[l])
    && (forall i, j :: 0 <= i < j < |lanes| && lanes[i] == lanes[j] ==> ps[i].stop <= ps[j].start)
  }

  /** Some instant has as many programmes live as there are lanes. */
  ghost predicate Needed(ps: seq<Programme>, lanes: nat) {
    lanes == 0 || exists t :: LiveCount(ps, t) >= lanes
  }

  /** findIndex: the first lane that is free by then. */
  method FreeLane(ends: seq<int>, start: int) returns (lane: nat)
    ensures lane <= |ends|
    ensures lane < |ends| ==> ends[lane] <= start
    ensures forall l :: 0 <= l < lane ==> ends[l] > start
  {
    lane := 0;
    while lane < |ends| && ends[lane] > start
      invariant lane <= |ends|
      invariant forall l :: 0 <= l < lane ==> ends[l] > start
    {
      lane := lane + 1;
    }
  }

  lemma PutInLane(ps: seq<Programme>, lanes: seq<nat>, ends: seq<int>, last: seq<int>, lane: nat)
    requires Packed(ps, lanes, ends, last) && |lanes| < |ps| && Proper(ps)
    requires lane < |ends| && ends[lane] <= ps[|lanes|].start
    ensures Packed(ps, lanes + [lane], ends[lane := ps[|lanes|].stop], last[lane := |lanes|])
  {
  }

  lemma OpenLane(ps: seq<Programme>, lanes: seq<nat>, ends: seq<int>, last: seq<int>)
    requires Packed(ps, lanes, ends, last) && |lanes| < |ps|
    ensures Packed(ps, lanes + [|ends|], ends + [ps[|lanes|].stop], last + [|lanes|])
  {
  }

  /** A lane is opened only when every lane's last programme is still running. */
  lemma OpenedIsNeeded(ps: seq<Programme>, lanes: seq<nat>, ends: seq<int>, last: seq<int>)
    requires Packed(ps, lanes, ends, last) && |lanes| < |ps| && Proper(ps) && Sorted(ps, Before)
    requires forall l :: 0 <= l < |ends| ==> ends[l] > ps[|lanes|].start
    ensures Needed(ps, |ends| + 1)
  {
    var t := ps[|lanes|].start;
    var some := last + [|lanes|];
    forall k | 0 <= k < |some| ensures 0 <= some[k] < |ps| && Live(ps[some[k]], t) {
      if k < |last| {
        assert lanes[last[k]] == k;
        assert Before(ps[last[k]], ps[|lanes|]);
      }
    }
    forall i, j | 0 <= i < j < |some| ensures some[i] != some[j] {
      if j < |last| {
        assert lanes[last[i]] == i && lanes[last[j]] == j;
      }
    }
    LiveAtLeast(ps, t, some);
  }

  /** The pass over the sorted programmes. */
  method LayOut(sorted: seq<Programme>)
    returns (laid: seq<Laid>, laneEnds: seq<int>, ghost lanes: seq<nat>, ghost last: seq<int>)
    requires Proper(sorted) && Sorted(sorted, Before)
    ensures |laid| == |lanes| == |sorted| && forall i :: 0 <= i < |laid| ==> laid[i] == Laid(sorted[i], lanes[i])
    ensures Packed(sorted, lanes, laneEnds, last) && Needed(sorted, |laneEnds|)
  {
    hide Packed, Needed, Proper, Sorted, Before;
    laid, laneEnds, lanes, last := [], [], [], [];
    NothingPacked(sorted);
    for k := 0 to |sorted|
      invariant |laid| == |lanes| == k && |last| == |laneEnds|
      invariant forall i :: 0 <= i < k ==> laid[i] == Laid(sorted[i], lanes[i])
      invariant Packed(sorted, lanes, laneEnds, last) && Needed(sorted, |laneEnds|)
    {
      var p := sorted[k];
      var lane := FreeLane(laneEnds, p.start);
      if lane == |laneEnds| {
        OpenedIsNeeded(sorted, lanes, laneEnds, last);
        OpenLane(sorted, lanes, laneEnds, last);
        last := last + [k];
        laneEnds := laneEnds + [p.stop];
      } else {
        PutInLane(sorted, lanes, laneEnds, last, lane);
        last := last[lane := k];
        laneEnds := laneEnds[lane := p.stop];
      }
      lanes := lanes + [lane];
      laid := laid + [Laid(p, lane)];
    }
  }

  lemma NothingPacked(ps: seq<Programme>)
    ensures Packed(ps, [], [], []) && Needed(ps, 0)
  {
  }

  lemma PackedFacts(ps: seq<Programme>, lanes: seq<nat>, ends: seq<int>, last: seq<int>)
    requires Packed(ps, lanes, ends, last) && |lanes| == |ps|
    ensures forall i :: 0 <= i < |lanes| ==> lanes[i] < |ends|
    ensures forall i, j :: 0 <= i < j < |lanes| && lanes[i] == lanes[j] ==> ps[i].stop <= ps[j].start
  {
  }

  /** assignProgrammeLanes: the programmes in order, none overlapping in a lane, in as few
      lanes as any assignment can do with. */
  method AssignProgrammeLanes(programmes: seq<Programme>) returns (laid: seq<Laid>, laneCount: nat)
    requires Proper(programmes)
    ensures |laid| == |programmes| == |StableSort(programmes, Before)|
    ensures forall i :: 0 <= i < |laid| ==> laid[i].programme == StableSort(programmes, Before)[i] && laid[i].lane < laneCount
    ensures multiset(StableSort(programmes, Before)) == multiset(programmes)
    ensures forall i, j :: 0 <= i < j < |laid| && laid[i].lane == laid[j].lane ==>
              laid[i].programme.stop <= laid[j].programme.start
    ensures IsPeak(programmes, laneCount)
  {
    hide StableSort, Proper, Sorted, Before, IsPeak, Packed, Needed;
    var sorted := StableSort(programmes, Before);
    SortedByTime(programmes);
    var laneEnds;
    ghost var lanes, last;
    laid, laneEnds, lanes, last := LayOut(sorted);
    laneCount := if |laneEnds| > 1 then |laneEnds| else 1;
    PackedFacts(sorted, lanes, laneEnds, last);
    PackedIsPeak(programmes, sorted, lanes, laneEnds, last);
  }

  lemma SortedByTime(programmes: seq<Programme>)
    requires Proper(programmes)
    ensures var sorted := StableSort(programmes, Before);
            |sorted| == |programmes| && multiset(sorted) == multiset(programmes) && Proper(sorted) && Sorted(sorted, Before)
  {
    SortMembers(programmes, Before);
    BeforeIsOrder();
    StableSortIs(programmes, Before);
    ProperSorted(programmes);
  }

  lemma ProperSorted(programmes: seq<Programme>)
    requires Proper(programmes)
    ensures Proper(StableSort(programmes, Before))
  {
    SortMembers(programmes, Before);
    var sorted := StableSort(programmes, Before);
    forall i | 0 <= i < |sorted| ensures sorted[i].start < sorted[i].stop {
      assert sorted[i] in multiset(programmes);
    }
  }

  lemma PackedIsPeak(programmes: seq<Programme>, sorted: seq<Programme>, lanes: seq<nat>, ends: seq<int>, last: seq<int>)
    requires sorted == StableSort(programmes, Before)
    requires Packed(sorted, lanes, ends, last) && |lanes| == |sorted| && Needed(sorted, |ends|)
    ensures IsPeak(programmes, if |ends| > 1 then |ends| else 1)
  {
    hide StableSort;
    forall t ensures LiveCount(programmes, t) == LiveCount(sorted, t) <= |ends| {
      LiveSorted(programmes, t);
      LanesCoverLive(sorted, lanes, |ends|, t);
    }
  }

  /** No assignment of the programmes to lanes without overlaps gets by with fewer. */
  lemma NoFewerLanes(programmes: seq<Programme>, laneCount: nat, lanes: seq<nat>, n: nat)
    requires IsPeak(programmes, laneCount)
    requires |lanes| == |programmes| && LanesOk(programmes, lanes) && forall i :: 0 <= i < |lanes| ==> lanes[i] < n
    ensures laneCount == 1 || laneCount <= n
  {
    if laneCount > 1 {
      var t :| LiveCount(programmes, t) == laneCount;
      LanesCoverLive(programmes, lanes, n, t);
    }
  }
}
