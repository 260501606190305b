/** The two-level failover walk: upstreams, and the fetch candidates of each
    (internal/core/stream/session.go, internal/core/stream/pump.go,
    internal/core/upstream/source.go). */
module Failover {
  import opened Text

  datatype Policy = Fixed | Random | Failover

  datatype Upstream = Upstream(url: string, candidates: seq<string>)

  datatype Source = Source(policy: Policy, upstreams: seq<Upstream>, fixedIndex: int)

  predicate Blank(text: string) {
    forall i :: 0 <= i < |text| ==> IsSpace(text[i])
  }

  function FetchUrls(u: Upstream): seq<string> {
    if |u.candidates| > 0 then u.candidates
    else if !Blank(u.url) then [u.url] else []
  }

  /** What Normalize leaves: at least one upstream, none with a blank URL. */
  predicate Normal(src: Source) {
    && src.upstreams != []
    && 0 <= src.fixedIndex < |src.upstreams|
    && forall u :: u in src.upstreams ==> !Blank(u.url)
  }

  function KeepUsable(ups: seq<Upstream>): seq<Upstream> {
    if ups == [] then []
    else (if Blank(ups[0].url) then [] else [ups[0]]) + KeepUsable(ups[1..])
  }

  /** ParsePolicy; an unknown name counts as fixed, the old name of failover is known. */
  function PolicyOf(raw: string): Policy {
    var p := LowerAscii(Trim(raw));
    if p == "random" then Random else if p == "failover" || p == "fallback" then Failover else Fixed
  }

  /** `policy` is the policy as it was written down. */
  method Normalize(policy: string, src: Source) returns (r: Source, ok: bool)
    ensures ok <==> exists u :: u in src.upstreams && !Blank(u.url)
    ensures ok ==> Normal(r) && r.policy == PolicyOf(policy) && r.upstreams == KeepUsable(src.upstreams)
    ensures ok ==> r.fixedIndex == if 0 <= src.fixedIndex < |r.upstreams| then src.fixedIndex else 0
  {
    hide Blank;
    var clean: seq<Upstream> := [];
    for i := 0 to |src.upstreams|
      invariant clean + KeepUsable(src.upstreams[i..]) == KeepUsable(src.upstreams)
      invariant forall u :: u in clean ==> !Blank(u.url)
      invariant clean == [] ==> forall k :: 0 <= k < i ==> Blank(src.upstreams[k].url)
      invariant clean != [] ==> clean[0] in src.upstreams
    {
      assert src.upstreams[i..][1..] == src.upstreams[i + 1..];
      if !Blank(src.upstreams[i].url) {
        clean := clean + [src.upstreams[i]];
      }
    }
    if clean == [] {
      return src, false;
    }
    r := src.(policy := PolicyOf(policy), upstreams := clean);
    if r.fixedIndex < 0 || r.fixedIndex >= |clean| {
      r := r.(fixedIndex := 0);
    }
    ok := true;
  }

  /** The pick for a policy over n rows; `roll` is the random draw. */
  function PickIndex(policy: Policy, n: nat, fixed: int, roll: nat): (i: nat)
    requires roll < n
    ensures i < n
  {
    match policy
    case Random => roll
    case Fixed => if 0 <= fixed < n then fixed else 0
    case Failover => 0
  }

  // ---------------------------------------------------------------- pairs in order

  /** A position of the walk: upstream index and candidate index. */
  datatype Pos = Pos(up: int, cand: int)

  predicate ValidPos(src: Source, p: Pos) {
    0 <= p.up < |src.upstreams| && 0 <= p.cand < |FetchUrls(src.upstreams[p.up])|
  }

  function Row(i: int, n: nat): seq<Pos> {
    if n == 0 then [] else Row(i, n - 1) + [Pos(i, n - 1)]
  }

  lemma {:induction false} RowIs(i: int, n: nat)
    ensures |Row(i, n)| == n && forall k :: 0 <= k < n ==> Row(i, n)[k] == Pos(i, k)
  {
    if n != 0 {
      RowIs(i, n - 1);
    }
  }

  /** Every pair of the first n upstreams, in walking order. */
  function Pairs(ups: seq<Upstream>, n: nat): seq<Pos>
    requires n <= |ups|
  {
    if n == 0 then [] else Pairs(ups, n - 1) + Row(n - 1, |FetchUrls(ups[n - 1])|)
  }

  /** The pairs a session may try while its upstream index is `up`. */
  function Eligible(src: Source, up: int): seq<Pos>
    requires 0 <= up < |src.upstreams|
  {
    if src.policy == Failover then Pairs(src.upstreams, |src.upstreams|)
    else Row(up, |FetchUrls(src.upstreams[up])|)
  }

  function Rank(src: Source, p: Pos): nat
    requires ValidPos(src, p)
  {
    if src.policy == Failover then |Pairs(src.upstreams, p.up)| + p.cand else p.cand
  }

  function Budget(src: Source, up: int): nat
    requires 0 <= up < |src.upstreams|
  {
    |Eligible(src, up)|
  }

  /** advanceLocked. */
  function Advance(src: Source, p: Pos): Pos
    requires ValidPos(src, p)
  {
    if p.cand + 1 < |FetchUrls(src.upstreams[p.up])| then Pos(p.up, p.cand + 1)
    else if src.policy == Failover then Pos(if p.up + 1 == |src.upstreams| then 0 else p.up + 1, 0)
    else Pos(p.up, 0)
  }

  predicate ShouldWalk(src: Source, p: Pos)
    requires ValidPos(src, p)
  {
    src.policy == Failover || |FetchUrls(src.upstreams[p.up])| > 1
  }

  lemma {:induction false} PairsPrefix(ups: seq<Upstream>, m: nat, n: nat)
    requires m <= n <= |ups|
    ensures Pairs(ups, m) <= Pairs(ups, n)
  {
    if m < n {
      PairsPrefix(ups, m, n - 1);
    }
  }

  /** A valid position is the eligible pair at its rank. */
  lemma RankFinds(src: Source, p: Pos)
    requires ValidPos(src, p)
    ensures Rank(src, p) < Budget(src, p.up)
    ensures Eligible(src, p.up)[Rank(src, p)] == p
  {
    hide FetchUrls;
    var n := |FetchUrls(src.upstreams[p.up])|;
    RowIs(p.up, n);
    if src.policy == Failover {
      PairsPrefix(src.upstreams, p.up + 1, |src.upstreams|);
      var upTo := Pairs(src.upstreams, p.up + 1);
      assert upTo == Pairs(src.upstreams, p.up) + Row(p.up, n);
      assert upTo[Rank(src, p)] == Row(p.up, n)[p.cand];
    }
  }

  /** Every upstream of a normal source has something to fetch. */
  lemma UsableHasUrls(src: Source, i: int)
    requires Normal(src) && 0 <= i < |src.upstreams|
    ensures |FetchUrls(src.upstreams[i])| >= 1
  {
    assert src.upstreams[i] in src.upstreams;
  }

  lemma PairsStep(ups: seq<Upstream>, n: nat)
    requires n < |ups|
    ensures |Pairs(ups, n + 1)| == |Pairs(ups, n)| + |FetchUrls(ups[n])|
    ensures |Pairs(ups, 0)| == 0
  {
    RowIs(n, |FetchUrls(ups[n])|);
  }

  /** The walk goes to the next eligible pair, and from the last one back to the first. */
  lemma AdvanceIsNext(src: Source, p: Pos)
    requires Normal(src) && ValidPos(src, p)
    ensures var q := Advance(src, p);
            ValidPos(src, q) && Eligible(src, q.up) == Eligible(src, p.up)
            && Rank(src, q) == if Rank(src, p) + 1 == Budget(src, p.up) then 0 else Rank(src, p) + 1
  {
    var q := Advance(src, p);
    UsableHasUrls(src, q.up);
    if src.policy == Failover {
      FailoverNext(src, p);
    } else {
      RowIs(p.up, |FetchUrls(src.upstreams[p.up])|);
    }
  }

  lemma FailoverNext(src: Source, p: Pos)
    requires ValidPos(src, p) && src.policy == Failover && ValidPos(src, Advance(src, p))
    ensures Rank(src, Advance(src, p)) == if Rank(src, p) + 1 == Budget(src, p.up) then 0 else Rank(src, p) + 1
  {
    hide FetchUrls, Pairs;
    var q := Advance(src, p);
    PairsStep(src.upstreams, p.up);
    PairsPrefix(src.upstreams, p.up + 1, |src.upstreams|);
    RankFinds(src, q);
  }

  // ---------------------------------------------------------------- attempts in a row

  /** The positions tried by k failures in a row, starting at p. */
  function Attempts(src: Source, p: Pos, k: nat): seq<Pos>
    requires Normal(src) && ValidPos(src, p)
    decreases k
  {
    if k == 0 then []
    else
      AdvanceIsNext(src, p);
      [p] + Attempts(src, Advance(src, p), k - 1)
  }

  /** Index i of a list of n that wraps around once. */
  function Cyc(n: nat, i: nat): int {
    if i < n then i else i - n
  }

  lemma {:induction false} AttemptAt(src: Source, p: Pos, k: nat, j: nat)
    requires Normal(src) && ValidPos(src, p) && j < k <= Budget(src, p.up)
    ensures |Attempts(src, p, k)| == k
    ensures 0 <= Cyc(Budget(src, p.up), Rank(src, p) + j) < Budget(src, p.up)
    ensures Attempts(src, p, k)[j] == Eligible(src, p.up)[Cyc(Budget(src, p.up), Rank(src, p) + j)]
    decreases k
  {
    hide Eligible, Rank, Advance, Normal;
    RankFinds(src, p);
    AdvanceIsNext(src, p);
    if j != 0 {
      AttemptAt(src, Advance(src, p), k - 1, j - 1);
    } else if k != 1 {
      AttemptAt(src, Advance(src, p), k - 1, 0);
    }
  }

  /** A full round from any position tries every eligible pair exactly once, cyclically:
      the attempts are the list of eligible pairs rotated to start at the position. */
  lemma FullRound(src: Source, p: Pos)
    requires Normal(src) && ValidPos(src, p)
    ensures var all, r := Eligible(src, p.up), Rank(src, p);
            r < |all| && Attempts(src, p, |all|) == all[r..] + all[..r]
  {
    hide Eligible, Normal, Rank, Attempts;
    var all, r := Eligible(src, p.up), Rank(src, p);
    RankFinds(src, p);
    AttemptAt(src, p, |all|, 0);
    forall k: nat | k < |all| ensures Attempts(src, p, |all|)[k] == (all[r..] + all[..r])[k] {
      AttemptAt(src, p, |all|, k);
    }
  }

  /** No pair occurs twice among the eligible ones. */
  lemma EligibleDistinct(src: Source, up: int, i: nat, j: nat)
    requires 0 <= up < |src.upstreams| && i < j < |Eligible(src, up)|
    ensures Eligible(src, up)[i] != Eligible(src, up)[j]
  {
    hide FetchUrls;
    if src.policy == Failover {
      PairsDistinct(src.upstreams, |src.upstreams|, i, j);
    } else {
      RowIs(up, |FetchUrls(src.upstreams[up])|);
    }
  }

  lemma {:induction false} PairsDistinct(ups: seq<Upstream>, n: nat, i: nat, j: nat)
    requires n <= |ups| && i <= j < |Pairs(ups, n)|
    ensures 0 <= Pairs(ups, n)[i].up <= Pairs(ups, n)[j].up < n
    ensures i < j ==> Pairs(ups, n)[i] != Pairs(ups, n)[j]
  {
    hide FetchUrls;
    var before, row := Pairs(ups, n - 1), Row(n - 1, |FetchUrls(ups[n - 1])|);
    RowIs(n - 1, |FetchUrls(ups[n - 1])|);
    if j < |before| {
      PairsDistinct(ups, n - 1, i, j);
    } else {
      assert Pairs(ups, n)[j] == row[j - |before|];
      if i < |before| {
        PairsDistinct(ups, n - 1, i, i);
      } else {
        assert Pairs(ups, n)[i] == row[i - |before|];
      }
    }
  }

  // ---------------------------------------------------------------- the run loop

  /** One turn of the run loop: nobody watches, a pump ended without error, the stream became
      ready inside a pump, a pump failed (`ended`: because the stream is over; `stopped`: the
      back-off wait saw a stop), or the loop was left because of a stop or for idleness. */
  datatype Turn = NoViewers | Healthy | BecameReady | Failed(ended: bool, stopped: bool) | Halt

  datatype Verdict = Going | NotReady | StreamEnded | Halted

  datatype Loop = Loop(pos: Pos, attempts: nat, ready: bool, backoff: nat, verdict: Verdict)

  function Start(src: Source, roll: nat): Loop
    requires src.upstreams != [] && roll < |src.upstreams|
  {
    Loop(Pos(PickIndex(src.policy, |src.upstreams|, src.fixedIndex, roll), 0), 0, false, 1, Going)
  }

  /** handlePumpError. */
  function HandleError(src: Source, l: Loop, ended: bool, stopped: bool): Loop
    requires ValidPos(src, l.pos)
  {
    var walk := ShouldWalk(src, l.pos);
    if !l.ready then
      if !walk then l.(verdict := NotReady)
      else if l.attempts + 1 >= Budget(src, l.pos.up) then l.(attempts := l.attempts + 1, verdict := NotReady)
      else l.(attempts := l.attempts + 1, pos := Advance(src, l.pos))
    else if ended && !walk then l.(verdict := StreamEnded)
    else
      var l' := l.(pos := if walk then Advance(src, l.pos) else l.pos);
      if stopped then l'.(verdict := Halted) else l'.(backoff := if l.backoff < 15 then 2 * l.backoff else l.backoff)
  }

  function Turned(src: Source, l: Loop, t: Turn): Loop
    requires ValidPos(src, l.pos)
  {
    if l.verdict != Going then l
    else match t
      case NoViewers => l
      case Healthy => l.(backoff := 1)
      case BecameReady => l.(ready := true)
      case Failed(ended, stopped) => HandleError(src, l, ended, stopped)
      case Halt => l.(verdict := Halted)
  }

  predicate LoopInv(src: Source, l: Loop) {
    && ValidPos(src, l.pos)
    && l.backoff in {1, 2, 4, 8, 16}
    && (l.verdict == StreamEnded ==> l.ready)
    && (l.verdict == NotReady ==> !l.ready)
  }

  /** Indices stay in range and the backoff stays within 1, 2, 4, 8, 16 seconds. */
  lemma TurnKeeps(src: Source, l: Loop, t: Turn)
    requires Normal(src) && LoopInv(src, l)
    ensures LoopInv(src, Turned(src, l, t))
    ensures Eligible(src, Turned(src, l, t).pos.up) == Eligible(src, l.pos.up)
    ensures ShouldWalk(src, Turned(src, l, t).pos) == ShouldWalk(src, l.pos)
  {
    AdvanceIsNext(src, l.pos);
    hide Eligible, Rank, Normal;
  }

  function Run(src: Source, l: Loop, ts: seq<Turn>): Loop
    requires Normal(src) && LoopInv(src, l)
    decreases |ts|
  {
    if ts == [] then l
    else
      TurnKeeps(src, l, ts[0]);
      Run(src, Turned(src, l, ts[0]), ts[1..])
  }

  /** The pairs a run had open at its failed pumps, in order. */
  function Tried(src: Source, l: Loop, ts: seq<Turn>): seq<Pos>
    requires Normal(src) && LoopInv(src, l)
    decreases |ts|
  {
    if ts == [] || l.verdict != Going then []
    else
      TurnKeeps(src, l, ts[0]);
      (if ts[0].Failed? then [l.pos] else []) + Tried(src, Turned(src, l, ts[0]), ts[1..])
  }

  /** The turn ends the loop for a reason of its own; a stop is waited for only once ready. */
  predicate Halts(t: Turn, ready: bool) {
    t.Halt? || (t.Failed? && t.stopped && ready)
  }

  /** Failed pumps up to such a turn. */
  function Failures(ts: seq<Turn>, ready: bool): nat {
    if ts == [] then 0
    else (if ts[0].Failed? then 1 else 0) + if Halts(ts[0], ready) then 0 else Failures(ts[1..], ready)
  }

  predicate IsHalted(ts: seq<Turn>, ready: bool) {
    exists t :: t in ts && Halts(t, ready)
  }

  /** Before readiness: the failed pumps of any run go through the walk one by one, whatever
      idle and healthy turns come between, and unless it is halted before, the session fails
      exactly when the budget is used up. */
  lemma {:induction false} BeforeReady(src: Source, l: Loop, ts: seq<Turn>)
    requires Normal(src) && LoopInv(src, l) && !l.ready && l.verdict == Going
    requires BecameReady !in ts
    requires l.attempts < Budget(src, l.pos.up)
    requires !ShouldWalk(src, l.pos) ==> l.attempts == 0
    ensures var left := Budget(src, l.pos.up) - l.attempts;
            Tried(src, l, ts) == Attempts(src, l.pos, if Failures(ts, false) < left then Failures(ts, false) else left)
            && (Run(src, l, ts).verdict
                == if Failures(ts, false) >= left then NotReady else if IsHalted(ts, false) then Halted else Going)
    decreases |ts|
  {
    hide Eligible, Rank, Normal, ShouldWalk, Advance;
    if ts != [] {
      TurnKeeps(src, l, ts[0]);
      AdvanceIsNext(src, l.pos);
      WalkOrOne(src, l.pos);
      HaltedStep(ts, false);
      var l' := Turned(src, l, ts[0]);
      if l'.verdict == Going {
        BeforeReady(src, l', ts[1..]);
      } else {
        Frozen(src, l', ts[1..]);
        assert Attempts(src, Advance(src, l.pos), 0) == [];
      }
    }
  }

  lemma WalkOrOne(src: Source, p: Pos)
    requires ValidPos(src, p)
    ensures !ShouldWalk(src, p) ==> Budget(src, p.up) == 1
  {
    if !ShouldWalk(src, p) {
      RowIs(p.up, 1);
    }
  }

  lemma {:induction false} Frozen(src: Source, l: Loop, ts: seq<Turn>)
    requires Normal(src) && LoopInv(src, l) && l.verdict != Going
    ensures Run(src, l, ts) == l && Tried(src, l, ts) == []
    decreases |ts|
  {
    if ts != [] {
      TurnKeeps(src, l, ts[0]);
      Frozen(src, l, ts[1..]);
    }
  }

  /** A fresh session that never gets ready tries every eligible pair exactly once, in order,
      and fails with the last of them. */
  lemma NeverReadyTriesAll(src: Source, roll: nat, ts: seq<Turn>)
    requires Normal(src) && roll < |src.upstreams| && BecameReady !in ts
    ensures LoopInv(src, Start(src, roll))
    ensures var l, all := Start(src, roll), Eligible(src, Start(src, roll).pos.up);
            (Run(src, l, ts).verdict == NotReady <==> Failures(ts, false) >= |all|)
            && (Failures(ts, false) >= |all| ==> Tried(src, l, ts) == all)
            && (Failures(ts, false) < |all| ==> Tried(src, l, ts) == all[..Failures(ts, false)])
  {
    var l := Start(src, roll);
    UsableHasUrls(src, l.pos.up);
    var all := Eligible(src, l.pos.up);
    assert Rank(src, l.pos) == 0;
    RankFinds(src, l.pos);
    hide Eligible, Rank, Normal, Attempts, ShouldWalk;
    BeforeReady(src, l, ts);
    FullRound(src, l.pos);
    assert all[0..] + all[..0] == all;
    var k := Failures(ts, false);
    if 0 < k < |all| {
      AttemptAt(src, l.pos, k, 0);
      forall j: nat | j < k ensures Attempts(src, l.pos, k)[j] == all[..k][j] {
        AttemptAt(src, l.pos, k, j);
      }
    } else if k == 0 {
      NoAttempts(src, l.pos);
    }
  }

  lemma NoAttempts(src: Source, p: Pos)
    requires Normal(src) && ValidPos(src, p)
    ensures Attempts(src, p, 0) == []
  {
  }

  /** After readiness a walking session never gives up: its failed pumps follow the walk until
      it is halted, so (FullRound) any budget-many of them in a row cover every eligible pair. */
  lemma {:induction false} AfterReady(src: Source, l: Loop, ts: seq<Turn>)
    requires Normal(src) && LoopInv(src, l) && l.ready && l.verdict == Going && ShouldWalk(src, l.pos)
    ensures Tried(src, l, ts) == Attempts(src, l.pos, Failures(ts, true))
    ensures Run(src, l, ts).verdict == if IsHalted(ts, true) then Halted else Going
    decreases |ts|
  {
    hide Eligible, Rank, Normal, ShouldWalk, Advance;
    if ts != [] {
      TurnKeeps(src, l, ts[0]);
      HaltedStep(ts, true);
      var l' := Turned(src, l, ts[0]);
      if l'.verdict == Going {
        AfterReady(src, l', ts[1..]);
      } else {
        Frozen(src, l', ts[1..]);
        AdvanceIsNext(src, l.pos);
        NoAttempts(src, Advance(src, l.pos));
      }
    }
  }

  lemma HaltedStep(ts: seq<Turn>, ready: bool)
    requires ts != []
    ensures IsHalted(ts, ready) <==> Halts(ts[0], ready) || IsHalted(ts[1..], ready)
  {
    assert ts == [ts[0]] + ts[1..];
  }

  // ---------------------------------------------------------------- the session's fields

  class Walker {
    const source: Source
    var currentIndex: int
    var candidateIndex: int
    var attemptsBeforeReady: nat
    var everReady: bool
    var backoff: nat
    var verdict: Verdict

    predicate Valid()
      reads this
    {
      Normal(source) && ValidPos(source, Pos(currentIndex, candidateIndex))
    }

    ghost function Abs(): Loop
      reads this
    {
      Loop(Pos(currentIndex, candidateIndex), attemptsBeforeReady, everReady, backoff, verdict)
    }

    constructor (source: Source, roll: nat)
      requires Normal(source) && roll < |source.upstreams|
      ensures Valid() && this.source == source && Abs() == Start(source, roll)
    {
      this.source := source;
      currentIndex := PickIndex(source.policy, |source.upstreams|, source.fixedIndex, roll);
      candidateIndex, attemptsBeforeReady, everReady, backoff, verdict := 0, 0, false, 1, Going;
      new;
      UsableHasUrls(source, currentIndex);
    }

    /** applyCurrentUpstreamLocked: clamp, then pick the fetch URL. On indices in range the
        clamps do nothing. */
    method ApplyCurrentUpstream() returns (url: string)
      requires Normal(source)
      modifies `currentIndex, `candidateIndex
      ensures Valid()
      ensures old(Valid()) ==> currentIndex == old(currentIndex) && candidateIndex == old(candidateIndex)
      ensures url == FetchUrls(source.upstreams[currentIndex])[candidateIndex]
    {
      if currentIndex < 0 || currentIndex >= |source.upstreams| {
        currentIndex := 0;
      }
      UsableHasUrls(source, currentIndex);
      var cands := FetchUrls(source.upstreams[currentIndex]);
      if candidateIndex < 0 || candidateIndex >= |cands| {
        candidateIndex := 0;
      }
      url := cands[candidateIndex];
    }

    method AdvanceIndex()
      requires Valid()
      modifies `currentIndex, `candidateIndex
      ensures Pos(currentIndex, candidateIndex) == Advance(source, old(Pos(currentIndex, candidateIndex)))
    {
      var n, idx := |source.upstreams|, currentIndex;
      var cands := FetchUrls(source.upstreams[idx]);
      if candidateIndex + 1 < |cands| {
        candidateIndex := candidateIndex + 1;
        return;
      }
      candidateIndex := 0;
      if source.policy == Failover {
        currentIndex := (idx + 1) % n;
      }
    }

    method AttemptBudget() returns (n: nat)
      requires Valid()
      ensures n == Budget(source, currentIndex)
    {
      hide FetchUrls, Normal;
      if source.policy == Failover {
        n := 0;
        for i := 0 to |source.upstreams|
          invariant n == |Pairs(source.upstreams, i)|
        {
          UsableHasUrls(source, i);
          PairsStep(source.upstreams, i);
          n := n + if |FetchUrls(source.upstreams[i])| > 1 then |FetchUrls(source.upstreams[i])| else 1;
        }
        return;
      }
      UsableHasUrls(source, currentIndex);
      RowIs(currentIndex, |FetchUrls(source.upstreams[currentIndex])|);
      n := if |FetchUrls(source.upstreams[currentIndex])| > 1 then |FetchUrls(source.upstreams[currentIndex])| else 1;
    }

    /** `stopped` says which of the two the wait saw first. */
    method HandlePumpError(ended: bool, stopped: bool) returns (stop: bool)
      requires Valid() && verdict == Going
      modifies this
      ensures Abs() == HandleError(source, old(Abs()), ended, stopped)
      ensures stop <==> verdict != Going
    {
      hide Eligible, FetchUrls, Normal;
      var walk := ShouldWalk(source, Pos(currentIndex, candidateIndex));
      if !everReady {
        if walk {
          attemptsBeforeReady := attemptsBeforeReady + 1;
          var budget := AttemptBudget();
          if attemptsBeforeReady >= budget {
            verdict := NotReady;
            return true;
          }
          AdvanceIndex();
          return false;
        }
        verdict := NotReady;
        return true;
      }
      if ended && !walk {
        verdict := StreamEnded;
        return true;
      }
      if walk {
        AdvanceIndex();
      }
      if stopped {
        verdict := Halted;
        return true;
      }
      if backoff < 15 {
        backoff := backoff * 2;
      }
      stop := false;
    }
  }
}
