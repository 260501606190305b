/** Where a session starts, which pairs it may try and how long it waits, told from the source
    as written and the turns of the run. */
module FailoverLaws {
  import opened Text
  import opened Failover

  // ---------------------------------------------------------------- the usable upstreams

  /** How many of the first n upstreams have a URL. */
  function UsableBefore(ups: seq<Upstream>, n: nat): nat
    requires n <= |ups|
  {
    if n == 0 then 0 else UsableBefore(ups, n - 1) + if Blank(ups[n - 1].url) then 0 else 1
  }

  /** Every upstream with a URL is kept, in order, and nothing else is. */
  lemma UsableAreKeptInOrder(ups: seq<Upstream>, i: nat)
    requires i < |ups|
    ensures |KeepUsable(ups)| == UsableBefore(ups, |ups|)
    ensures !Blank(ups[i].url) ==> UsableBefore(ups, i) < |KeepUsable(ups)| && KeepUsable(ups)[UsableBefore(ups, i)] == ups[i]
  {
    hide Blank, KeepUsable, UsableBefore;
    KeptSoFar(ups, |ups|);
    assert ups[..|ups|] == ups;
    if !Blank(ups[i].url) {
      var before, rest := KeepUsable(ups[..i]), KeepUsable(ups[i..]);
      KeptFirst(ups[i..]);
      KeptSoFar(ups, i);
      KeepSplits(ups[..i], ups[i..]);
      assert ups == ups[..i] + ups[i..];
      assert KeepUsable(ups)[|before|] == rest[0];
    }
  }

  lemma KeptFirst(ups: seq<Upstream>)
    requires ups != [] && !Blank(ups[0].url)
    ensures KeepUsable(ups) != [] && KeepUsable(ups)[0] == ups[0]
  {
    hide Blank;
  }

  lemma {:induction false} KeepSplits(a: seq<Upstream>, b: seq<Upstream>)
    ensures KeepUsable(a + b) == KeepUsable(a) + KeepUsable(b)
  {
    hide Blank;
    if a == [] {
      assert a + b == b;
    } else {
      assert (a + b)[1..] == a[1..] + b;
      KeepSplits(a[1..], b);
    }
  }

  lemma {:induction false} KeptSoFar(ups: seq<Upstream>, n: nat)
    requires n <= |ups|
    ensures |KeepUsable(ups[..n])| == UsableBefore(ups, n)
  {
    hide Blank;
    if n > 0 {
      KeptSoFar(ups, n - 1);
      assert ups[..n] == ups[..n - 1] + [ups[n - 1]];
      KeepSplits(ups[..n - 1], [ups[n - 1]]);
    }
  }

  // ---------------------------------------------------------------- where a session starts

  /** Which policy a written name stands for, spaces around it and letter case aside. */
  lemma WrittenPolicy(before: string, name: string, after: string)
    requires Spaces(before) && Spaces(after) && Trimmed(name)
    ensures var p := PolicyOf(before + name + after);
            (p == Random <==> LowerAscii(name) == "random")
            && (p == Policy.Failover <==> LowerAscii(name) == "failover" || LowerAscii(name) == "fallback")
  {
    TrimTakesSpaces(before, name, after);
    hide Trim, LowerAscii;
    assert |"random"| == 6 && |"failover"| == 8 && |"fallback"| == 8;
  }

  /** The fixed pick, the random draw, or the first upstream; and there the first URL. */
  lemma SessionStarts(src: Source, roll: nat)
    requires Normal(src) && roll < |src.upstreams|
    ensures var p := Start(src, roll).pos;
            ValidPos(src, p) && p.cand == 0
            && (src.policy == Fixed ==> p.up == src.fixedIndex)
            && (src.policy == Random ==> p.up == roll)
            && (src.policy == Policy.Failover ==> p.up == 0)
    ensures var p := Start(src, roll).pos; var u := src.upstreams[p.up];
            FetchUrls(u)[0] == if u.candidates != [] then u.candidates[0] else u.url
  {
    UsableHasUrls(src, Start(src, roll).pos.up);
  }

  /** The pairs a session may try: all of them under failover, else those of its upstream;
      in order of upstream, then of candidate. */
  lemma EligibleExactly(src: Source, up: int, p: Pos)
    requires 0 <= up < |src.upstreams|
    ensures p in Eligible(src, up) <==> ValidPos(src, p) && (src.policy == Policy.Failover || p.up == up)
  {
    hide FetchUrls, Pairs;
    if ValidPos(src, p) && (src.policy == Policy.Failover || p.up == up) {
      RankFinds(src, p);
    }
    if p in Eligible(src, up) {
      if src.policy == Policy.Failover {
        PairsAreValid(src, |src.upstreams|, p);
      } else {
        RowIs(up, |FetchUrls(src.upstreams[up])|);
      }
    }
  }

  lemma {:induction false} PairsAreValid(src: Source, n: nat, p: Pos)
    requires n <= |src.upstreams| && p in Pairs(src.upstreams, n)
    ensures ValidPos(src, p)
  {
    hide FetchUrls;
    RowIs(n - 1, |FetchUrls(src.upstreams[n - 1])|);
    if p in Pairs(src.upstreams, n - 1) {
      PairsAreValid(src, n - 1, p);
    }
  }

  predicate Comes(p: Pos, q: Pos) {
    p.up < q.up || (p.up == q.up && p.cand < q.cand)
  }

  lemma EligibleInOrder(src: Source, up: int, i: nat, j: nat)
    requires 0 <= up < |src.upstreams| && i < j < |Eligible(src, up)|
    ensures Comes(Eligible(src, up)[i], Eligible(src, up)[j])
  {
    if src.policy == Policy.Failover {
      PairsInOrder(src.upstreams, |src.upstreams|, i, j);
    } else {
      RowIs(up, |FetchUrls(src.upstreams[up])|);
    }
  }

  lemma {:induction false} PairsInOrder(ups: seq<Upstream>, n: nat, i: nat, j: nat)
    requires n <= |ups| && i < j < |Pairs(ups, n)|
    ensures Comes(Pairs(ups, n)[i], Pairs(ups, n)[j])
  {
    hide FetchUrls;
    var before, row := Pairs(ups, n - 1), Row(n - 1, |FetchUrls(ups[n - 1])|);
    RowIs(n - 1, |FetchUrls(ups[n - 1])|);
    if j < |before| {
      PairsInOrder(ups, n - 1, i, j);
    } else {
      assert Pairs(ups, n)[j] == row[j - |before|];
      if i < |before| {
        PairsDistinct(ups, n - 1, i, i);
      } else {
        assert Pairs(ups, n)[i] == row[i - |before|];
      }
    }
  }

  // ---------------------------------------------------------------- waits

  lemma {:induction false} RunLast(src: Source, l: Loop, ts: seq<Turn>)
    requires Normal(src) && LoopInv(src, l) && ts != []
    ensures LoopInv(src, Run(src, l, ts[..|ts| - 1]))
    ensures Run(src, l, ts) == Turned(src, Run(src, l, ts[..|ts| - 1]), ts[|ts| - 1])
    decreases |ts|
  {
    TurnKeeps(src, l, ts[0]);
    hide LoopInv, Normal, Turned;
    var n := |ts| - 1;
    if n == 0 {
      assert ts[..0] == [] && ts[1..] == [];
    } else {
      RunLast(src, Turned(src, l, ts[0]), ts[1..]);
      assert ts[1..][..n - 1] == ts[..n][1..];
    }
  }

  /** Pumps that failed on a ready stream since the last healthy one. */
  function FailedInARow(ts: seq<Turn>): nat {
    if ts == [] then 0
    else
      var before, t := ts[..|ts| - 1], ts[|ts| - 1];
      if t.Healthy? then 0
      else FailedInARow(before) + if t.Failed? && BecameReady in before then 1 else 0
  }

  const WAITS := [1, 2, 4, 8, 16]

  /** The wait after so many failures in a row and one more. */
  function Wait(failures: nat): nat {
    if failures < 5 then WAITS[failures] else 16
  }

  lemma WaitStep(src: Source, l: Loop, t: Turn, failures: nat)
    requires LoopInv(src, l) && l.backoff == Wait(failures) && Turned(src, l, t).verdict == Going
    ensures l.verdict == Going && Turned(src, l, t).ready == (l.ready || t.BecameReady?)
    ensures Turned(src, l, t).backoff
         == if t.Healthy? then Wait(0) else if t.Failed? && l.ready then Wait(failures + 1) else Wait(failures)
  {
    hide ShouldWalk, Advance, Budget;
  }

  /** After any run of a fresh session that goes on: it is ready if it ever became so, and the
      next wait doubles with each failure in a row, from 1 second up to 16. */
  lemma {:induction false} WaitsDouble(src: Source, roll: nat, ts: seq<Turn>)
    requires Normal(src) && roll < |src.upstreams|
    ensures LoopInv(src, Start(src, roll))
    ensures var l, k := Run(src, Start(src, roll), ts), FailedInARow(ts);
            l.verdict == Going ==> (l.ready <==> BecameReady in ts) && l.backoff == Wait(k)
    decreases |ts|
  {
    SessionStarts(src, roll);
    hide Normal, Turned, PickIndex, ValidPos, Wait;
    if ts == [] {
      assert Run(src, Start(src, roll), ts) == Start(src, roll) && Wait(0) == 1;
    } else {
      var before, t := ts[..|ts| - 1], ts[|ts| - 1];
      WaitsDouble(src, roll, before);
      RunLast(src, Start(src, roll), ts);
      assert ts == before + [t];
      var l := Run(src, Start(src, roll), before);
      hide Run, LoopInv;
      if l.verdict == Going && Turned(src, l, t).verdict == Going {
        WaitStep(src, l, t, FailedInARow(before));
      } else if l.verdict != Going {
        Ended(src, l, t);
      }
    }
  }

  lemma Ended(src: Source, l: Loop, t: Turn)
    requires LoopInv(src, l) && l.verdict != Going
    ensures Turned(src, l, t) == l
  {
  }

  // ---------------------------------------------------------------- one pair only

  /** Ends the run of a ready session that has nowhere else to go. */
  predicate EndsAlone(t: Turn) {
    t.Halt? || (t.Failed? && (t.ended || t.stopped))
  }

  /** A ready session with a single pair stays on it until the stream ends, which is its end,
      or it is halted. */
  lemma {:induction false} AloneEndsExactly(src: Source, l: Loop, ts: seq<Turn>)
    requires Normal(src) && LoopInv(src, l) && l.ready && l.verdict == Going
    requires src.policy != Policy.Failover && |FetchUrls(src.upstreams[l.pos.up])| == 1
    ensures Run(src, l, ts).pos == l.pos
    ensures Run(src, l, ts).verdict == Going <==> forall t :: t in ts ==> !EndsAlone(t)
    ensures forall k :: 0 <= k < |ts| && EndsAlone(ts[k]) && (forall j :: 0 <= j < k ==> !EndsAlone(ts[j])) ==>
              Run(src, l, ts).verdict == if ts[k].Failed? && ts[k].ended then StreamEnded else Halted
    decreases |ts|
  {
    if ts != [] {
      TurnKeeps(src, l, ts[0]);
      var l' := Turned(src, l, ts[0]);
      assert ts == [ts[0]] + ts[1..];
      if l'.verdict == Going {
        AloneEndsExactly(src, l', ts[1..]);
        hide Run, LoopInv, Turned, Normal;
        forall k | 0 <= k < |ts| && EndsAlone(ts[k]) && (forall j :: 0 <= j < k ==> !EndsAlone(ts[j]))
          ensures Run(src, l, ts).verdict == if ts[k].Failed? && ts[k].ended then StreamEnded else Halted
        {
          assert ts[1..][k - 1] == ts[k];
          assert forall j :: 0 <= j < k - 1 ==> ts[1..][j] == ts[j + 1];
        }
      } else {
        Frozen(src, l', ts[1..]);
        assert ts[0] in ts && EndsAlone(ts[0]);
      }
    }
  }
}
