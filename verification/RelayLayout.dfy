/** ReplaceRelayLayout (internal/core/store/relays.go): one request rearranges a relay's groups
    and memberships, or nothing. */
module RelayLayout {
  import opened Seqs
  import opened Text
  import opened Lineup

  datatype LayoutGroup = LayoutGroup(id: int, name: string, members: seq<int>)

  function GroupIds(layout: seq<LayoutGroup>): seq<int> {
    seq(|layout|, i requires 0 <= i < |layout| => layout[i].id)
  }

  /** The layout's memberships in one row. */
  function Flat(layout: seq<LayoutGroup>): seq<int> {
    if layout == [] then [] else Flat(layout[..|layout| - 1]) + layout[|layout| - 1].members
  }

  function GroupsOf(t: Tables, relay: int): set<int> {
    set g | g in t.groups && t.groups[g].relay == relay
  }

  function MembersOf(t: Tables, relay: int): set<int> {
    set m | m in t.members && t.members[m].relay == relay
  }

  predicate ElementsOf(s: seq<int>, all: set<int>) {
    forall i :: 0 <= i < |s| ==> s[i] in all
  }

  predicate Named(layout: seq<LayoutGroup>) {
    forall i :: 0 <= i < |layout| ==> Trim(layout[i].name) != ""
  }

  /** What the checks of the loop and the two counts amount to. */
  predicate Accepted(t: Tables, relay: int, layout: seq<LayoutGroup>) {
    && relay in t.relays
    && |layout| == |GroupsOf(t, relay)|
    && ElementsOf(GroupIds(layout), GroupsOf(t, relay)) && NoRepeats(GroupIds(layout)) && Named(layout)
    && ElementsOf(Flat(layout), MembersOf(t, relay)) && NoRepeats(Flat(layout))
    && |Flat(layout)| == |MembersOf(t, relay)|
  }

  /** Only rearrangements of the relay's groups and of its memberships are accepted. */
  lemma AcceptedIsPermutation(t: Tables, relay: int, layout: seq<LayoutGroup>)
    requires Accepted(t, relay, layout)
    ensures multiset(GroupIds(layout)) == multiset(GroupsOf(t, relay))
    ensures multiset(Flat(layout)) == multiset(MembersOf(t, relay))
  {
    AllOf(GroupIds(layout), GroupsOf(t, relay));
    AllOf(Flat(layout), MembersOf(t, relay));
  }

  // ---------------------------------------------------------------- the loop

  /** Rows placed so far: `done` in order, at positions before (gi, mi). */
  predicate Placing(t: Tables, relay: int, groups: map<int, Group>, members: map<int, Member>, done: seq<int>, seen: set<int>, gi: int, mi: int) {
    && groups.Keys == t.groups.Keys && members.Keys == t.members.Keys && seen <= GroupsOf(t, relay)
    && (forall g :: g in t.groups ==> groups[g].relay == t.groups[g].relay)
    && (forall g :: g in t.groups && g !in seen ==> groups[g] == t.groups[g])
    && (forall m :: m in t.members ==> members[m].relay == t.members[m].relay && members[m].channel == t.members[m].channel)
    && (forall m :: m in t.members && m !in done ==> members[m] == t.members[m])
    && ElementsOf(done, MembersOf(t, relay)) && NoRepeats(done)
    && (forall k :: 0 <= k < |done| ==> InPlace(groups, members, done[k], k, seen, gi, mi))
    && forall j, k :: 0 <= j < k < |done| ==> Earlier(groups, members, done[j], done[k])
  }

  predicate InPlace(groups: map<int, Group>, members: map<int, Member>, m: int, k: nat, seen: set<int>, gi: int, mi: int) {
    m in members && members[m].number == k + 1 && members[m].group in seen && members[m].group in groups
    && (groups[members[m].group].sort < gi || (groups[members[m].group].sort == gi && members[m].sort < mi))
  }

  predicate Earlier(groups: map<int, Group>, members: map<int, Member>, a: int, b: int) {
    a in members && b in members && members[a].group in groups && members[b].group in groups
    && (groups[members[a].group].sort < groups[members[b].group].sort
        || (groups[members[a].group].sort == groups[members[b].group].sort && members[a].sort < members[b].sort))
  }

  lemma PlaceGroup(t: Tables, relay: int, groups: map<int, Group>, members: map<int, Member>, done: seq<int>, seen: set<int>, gi: int, g: int, name: string)
    requires Placing(t, relay, groups, members, done, seen, gi, 0) && g in GroupsOf(t, relay) && g !in seen
    ensures Placing(t, relay, groups[g := Group(relay, name, gi)], members, done, seen + {g}, gi, 0)
  {
  }

  lemma PlaceMember(t: Tables, relay: int, groups: map<int, Group>, members: map<int, Member>, done: seq<int>, seen: set<int>, gi: int, mi: int, g: int, m: int)
    requires Placing(t, relay, groups, members, done, seen, gi, mi) && g in seen && groups[g].sort == gi
    requires m in MembersOf(t, relay) && m !in done
    ensures Placing(t, relay, groups, members[m := members[m].(group := g, sort := mi, number := |done| + 1)], done + [m], seen, gi, mi + 1)
  {
    var members' := members[m := members[m].(group := g, sort := mi, number := |done| + 1)];
    var done' := done + [m];
    forall k | 0 <= k < |done'| ensures InPlace(groups, members', done'[k], k, seen, gi, mi + 1) {
      if k < |done| {
        assert InPlace(groups, members, done[k], k, seen, gi, mi);
      }
    }
    forall j, k | 0 <= j < k < |done'| ensures Earlier(groups, members', done'[j], done'[k]) {
      if k < |done| {
        assert Earlier(groups, members, done[j], done[k]);
      } else {
        assert InPlace(groups, members, done[j], j, seen, gi, mi);
      }
    }
  }

  lemma NextGroup(t: Tables, relay: int, groups: map<int, Group>, members: map<int, Member>, done: seq<int>, seen: set<int>, gi: int, mi: int)
    requires Placing(t, relay, groups, members, done, seen, gi, mi)
    ensures Placing(t, relay, groups, members, done, seen, gi + 1, 0)
  {
    forall k | 0 <= k < |done| ensures InPlace(groups, members, done[k], k, seen, gi + 1, 0) {
      assert InPlace(groups, members, done[k], k, seen, gi, mi);
    }
  }

  predicate SlotIs(t: Tables, t': Tables, m: int, group: int, sort: int) {
    m in t.members && m in t'.members
    && t'.members[m].group == group && t'.members[m].sort == sort
    && t'.members[m].relay == t.members[m].relay && t'.members[m].channel == t.members[m].channel
  }

  lemma {:induction false} FlatPrefix(layout: seq<LayoutGroup>, gi: nat)
    requires gi < |layout|
    ensures Flat(layout[..gi]) + layout[gi].members <= Flat(layout)
  {
    var n := |layout| - 1;
    if gi < n {
      FlatPrefix(layout[..n], gi);
      assert layout[..n][..gi] == layout[..gi];
    }
  }

  /** The next membership is the next in the row. */
  lemma FlatAt(layout: seq<LayoutGroup>, gi: nat, mi: nat)
    requires gi < |layout| && mi < |layout[gi].members|
    ensures var done := Flat(layout[..gi]) + layout[gi].members[..mi];
            |done| < |Flat(layout)| && Flat(layout)[|done|] == layout[gi].members[mi] && done == Flat(layout)[..|done|]
  {
    FlatPrefix(layout, gi);
    var done := Flat(layout[..gi]) + layout[gi].members[..mi];
    assert Flat(layout[..gi]) + layout[gi].members == Flat(layout)[..|Flat(layout[..gi])| + |layout[gi].members|];
    assert done == (Flat(layout[..gi]) + layout[gi].members)[..|done|];
  }

  lemma NotElements(s: seq<int>, k: nat, all: set<int>)
    requires k < |s| && s[k] !in all
    ensures !ElementsOf(s, all)
  {
  }

  lemma Repeats(s: seq<int>, k: nat)
    requires k < |s| && s[k] in s[..k]
    ensures !NoRepeats(s)
  {
    var i :| 0 <= i < k && s[..k][i] == s[k];
    assert s[i] == s[k];
  }

  /** The memberships of group gi so far. */
  predicate SlotsOf(t: Tables, members: map<int, Member>, g: LayoutGroup, upTo: nat) {
    upTo <= |g.members| && forall j :: 0 <= j < upTo ==> SlotIs(t, t.(members := members), g.members[j], g.id, j)
  }

  /** The inner loop: one group's memberships, each known and new, at the next free number. */
  method PlaceMembers(t: Tables, relay: int, layout: seq<LayoutGroup>, gi: nat, groups: map<int, Group>, members: map<int, Member>, ghost seen: set<int>, seenMembers: set<int>, no: nat)
    returns (ok: bool, members': map<int, Member>, seen': set<int>, no': nat)
    requires gi < |layout| && layout[gi].id in seen && layout[gi].id in groups && groups[layout[gi].id].sort == gi
    requires Placing(t, relay, groups, members, Flat(layout[..gi]), seen, gi, 0)
    requires seenMembers == Elements(Flat(layout[..gi])) && no == |Flat(layout[..gi])|
    ensures !ok ==> !Accepted(t, relay, layout)
    ensures ok ==> Placing(t, relay, groups, members', Flat(layout[..gi + 1]), seen, gi + 1, 0)
    ensures ok ==> seen' == Elements(Flat(layout[..gi + 1])) && no' == |Flat(layout[..gi + 1])|
    ensures ok ==> SlotsOf(t, members', layout[gi], |layout[gi].members|)
    ensures ok ==> forall m :: m in seenMembers && m in members ==> m in members' && members'[m] == members[m]
  {
    hide Placing, SlotIs, NoRepeats;
    var g := layout[gi];
    members', seen', no' := members, seenMembers, no;
    ghost var before := Flat(layout[..gi]);
    ghost var done := before;
    assert g.members[..0] == [];
    for mi := 0 to |g.members|
      invariant done == before + g.members[..mi] && seen' == Elements(done) && no' == |done|
      invariant Placing(t, relay, groups, members', done, seen, gi, mi)
      invariant SlotsOf(t, members', g, mi)
      invariant forall m :: m in seenMembers && m in members ==> m in members' && members'[m] == members[m]
    {
      var mid := g.members[mi];
      FlatAt(layout, gi, mi);
      if mid !in t.members || t.members[mid].relay != relay {
        NotElements(Flat(layout), |done|, MembersOf(t, relay));
        ok := false;
        return;
      }
      if mid in seen' {
        Repeats(Flat(layout), |done|);
        ok := false;
        return;
      }
      PlaceMember(t, relay, groups, members', done, seen, gi, mi, g.id, mid);
      no' := no' + 1;
      ghost var was := members';
      assert mid in members' by {
        Known(t, relay, groups, members', done, seen, gi, mi, mid);
      }
      Slot(t, members', g, mi, mid, no', relay, groups, done, seen, gi);
      members' := members'[mid := members'[mid].(group := g.id, sort := mi, number := no')];
      assert g.members[..mi + 1] == g.members[..mi] + [mid];
      done := done + [mid];
      seen' := seen' + {mid};
    }
    assert g.members[..|g.members|] == g.members;
    assert layout[..gi + 1][..gi] == layout[..gi];
    NextGroup(t, relay, groups, members', done, seen, gi, |g.members|);
    ok := true;
  }

  lemma Known(t: Tables, relay: int, groups: map<int, Group>, members: map<int, Member>, done: seq<int>, seen: set<int>, gi: int, mi: int, m: int)
    requires Placing(t, relay, groups, members, done, seen, gi, mi) && m in t.members
    ensures m in members
  {
  }

  lemma Slot(t: Tables, members: map<int, Member>, g: LayoutGroup, mi: nat, m: int, no: int, relay: int, groups: map<int, Group>, done: seq<int>, seen: set<int>, gi: int)
    requires Placing(t, relay, groups, members, done, seen, gi, mi)
    requires SlotsOf(t, members, g, mi) && mi < |g.members| && g.members[mi] == m && m in t.members && m in members
    requires forall j :: 0 <= j < mi ==> g.members[j] != m
    ensures SlotsOf(t, members[m := members[m].(group := g.id, sort := mi, number := no)], g, mi + 1)
  {
    var members' := members[m := members[m].(group := g.id, sort := mi, number := no)];
    forall j | 0 <= j < mi + 1 ensures SlotIs(t, t.(members := members'), g.members[j], g.id, j) {
      if j < mi {
        assert SlotIs(t, t.(members := members), g.members[j], g.id, j);
      }
    }
  }

  // ---------------------------------------------------------------- the operation

  /** Groups so far have their new name and position, memberships theirs. */
  predicate GroupsPlaced(t: Tables, groups: map<int, Group>, members: map<int, Member>, relay: int, layout: seq<LayoutGroup>, gi: nat) {
    gi <= |layout| && forall i :: 0 <= i < gi ==>
      layout[i].id in groups && groups[layout[i].id] == Group(relay, Trim(layout[i].name), i)
      && SlotsOf(t, members, layout[i], |layout[i].members|)
  }

  lemma {:induction false} FlatContains(layout: seq<LayoutGroup>, gi: nat, i: nat, j: nat)
    requires i < gi <= |layout| && j < |layout[i].members|
    ensures layout[i].members[j] in Flat(layout[..gi])
    decreases gi
  {
    assert layout[..gi][..gi - 1] == layout[..gi - 1];
    if i < gi - 1 {
      FlatContains(layout, gi - 1, i, j);
    }
  }

  lemma GroupsStayPlaced(t: Tables, groups: map<int, Group>, members: map<int, Member>, groups': map<int, Group>, members': map<int, Member>, relay: int, layout: seq<LayoutGroup>, gi: nat)
    requires GroupsPlaced(t, groups, members, relay, layout, gi)
    requires forall i :: 0 <= i < gi ==> layout[i].id in groups' && groups'[layout[i].id] == groups[layout[i].id]
    requires forall m :: m in Flat(layout[..gi]) && m in members ==> m in members' && members'[m] == members[m]
    ensures GroupsPlaced(t, groups', members', relay, layout, gi)
  {
    forall i | 0 <= i < gi ensures SlotsOf(t, members', layout[i], |layout[i].members|) {
      forall j | 0 <= j < |layout[i].members|
        ensures SlotIs(t, t.(members := members'), layout[i].members[j], layout[i].id, j)
      {
        FlatContains(layout, gi, i, j);
        assert SlotIs(t, t.(members := members), layout[i].members[j], layout[i].id, j);
      }
    }
  }

  /** A finished layout leaves the relay numbered and everything else as it was. */
  lemma FinishedIsLineup(t: Tables, relay: int, groups: map<int, Group>, members: map<int, Member>, layout: seq<LayoutGroup>, seen: set<int>, gi: int)
    requires TablesInv(t) && Placing(t, relay, groups, members, Flat(layout), seen, gi, 0)
    requires |Flat(layout)| == |MembersOf(t, relay)|
    ensures var t' := t.(groups := groups, members := members);
            IsLineup(t', relay, Flat(layout)) && Numbered(t', relay)
  {
    var t' := t.(groups := groups, members := members);
    var ids := Flat(layout);
    AllOf(ids, MembersOf(t, relay));
    assert forall m :: m in ids <==> m in Elements(ids);
    forall i, j | 0 <= i < j < |ids| ensures Precedes(t', ids[i], ids[j]) {
      assert InPlace(groups, members, ids[i], i, seen, gi, 0) && InPlace(groups, members, ids[j], j, seen, gi, 0);
      assert Earlier(groups, members, ids[i], ids[j]);
    }
    forall i | 0 <= i < |ids| ensures Of(t', relay, ids[i]) && t'.members[ids[i]].number == i + 1 {
      assert InPlace(groups, members, ids[i], i, seen, gi, 0);
      assert ids[i] in MembersOf(t, relay);
    }
  }

  lemma FinishedIsSound(t: Tables, relay: int, groups: map<int, Group>, members: map<int, Member>, layout: seq<LayoutGroup>, seen: set<int>, gi: int)
    requires TablesInv(t) && AllNumbered(t) && Placing(t, relay, groups, members, Flat(layout), seen, gi, 0)
    requires |Flat(layout)| == |MembersOf(t, relay)|
    ensures var t' := t.(groups := groups, members := members); TablesInv(t') && AllNumbered(t')
  {
    var t' := t.(groups := groups, members := members);
    FinishedIsLineup(t, relay, groups, members, layout, seen, gi);
    forall m | m in t'.members ensures Placed(t', t'.members[m]) {
      PlacedAfter(t, relay, groups, members, Flat(layout), seen, gi, m);
    }
    hide Numbered;
    forall m, n | m in t'.members && n in t'.members && SamePair(t'.members[m], t'.members[n]) ensures m == n {
      assert SamePair(t.members[m], t.members[n]);
    }
    forall q | q in t'.relays ensures Numbered(t', q) {
      if q != relay {
        OthersUntouched(t, relay, groups, members, Flat(layout), seen, gi, q);
        NumberedFrame(t, t', q);
      }
    }
  }

  lemma PlacedAfter(t: Tables, relay: int, groups: map<int, Group>, members: map<int, Member>, done: seq<int>, seen: set<int>, gi: int, m: int)
    requires TablesInv(t) && Placing(t, relay, groups, members, done, seen, gi, 0) && m in members
    ensures Placed(t.(groups := groups, members := members), members[m])
  {
    assert Placed(t, t.members[m]);
    if m in done {
      var k :| 0 <= k < |done| && done[k] == m;
      assert InPlace(groups, members, done[k], k, seen, gi, 0);
    }
  }

  lemma OthersUntouched(t: Tables, relay: int, groups: map<int, Group>, members: map<int, Member>, done: seq<int>, seen: set<int>, gi: int, q: int)
    requires Placing(t, relay, groups, members, done, seen, gi, 0) && q != relay
    ensures SameRows(t, t.(groups := groups, members := members), q)
  {
    forall m | m in t.members && t.members[m].relay == q ensures members[m] == t.members[m] {
      assert m !in done;
    }
  }

  /** ReplaceRelayLayout: accepted exactly when it rearranges what is there; then the lineup is
      the layout read from left to right, numbered 1, 2, ..., n. */
  method ReplaceRelayLayout(s: RelayStore, relay: int, layout: seq<LayoutGroup>) returns (accepted: bool)
    requires s.Valid()
    modifies s`t
    ensures s.Valid()
    ensures accepted <==> Accepted(old(s.t), relay, layout)
    ensures !accepted ==> s.t == old(s.t)
    ensures accepted ==> IsLineup(s.t, relay, Flat(layout)) && Numbered(s.t, relay)
    ensures accepted ==> GroupsPlaced(old(s.t), s.t.groups, s.t.members, relay, layout, |layout|)
    ensures accepted ==> s.t.groups.Keys == old(s.t).groups.Keys && s.t.members.Keys == old(s.t).members.Keys
    ensures accepted ==> forall q :: q != relay ==> SameRows(old(s.t), s.t, q)
  {
    hide TablesInv, AllNumbered, Numbered, Placing, GroupsPlaced, Flat, NoRepeats, Named;
    accepted := false;
    if relay in s.t.relays && |layout| == |GroupsOf(s.t, relay)| {
      var ok, groups, members, no := PlaceGroups(s.t, relay, layout);
      if ok {
        if no == |MembersOf(s.t, relay)| {
          ghost var seen :| Placing(s.t, relay, groups, members, Flat(layout), seen, |layout|, 0);
          FinishedIsSound(s.t, relay, groups, members, layout, seen, |layout|);
          FinishedIsLineup(s.t, relay, groups, members, layout, seen, |layout|);
          forall q | q != relay ensures SameRows(s.t, s.t.(groups := groups, members := members), q) {
            OthersUntouched(s.t, relay, groups, members, Flat(layout), seen, |layout|, q);
          }
          Keys(s.t, relay, groups, members, Flat(layout), seen, |layout|);
          s.t := s.t.(groups := groups, members := members);
          accepted := true;
        }
      }
    }
  }

  lemma Keys(t: Tables, relay: int, groups: map<int, Group>, members: map<int, Member>, done: seq<int>, seen: set<int>, gi: int)
    requires Placing(t, relay, groups, members, done, seen, gi, 0)
    ensures groups.Keys == t.groups.Keys && members.Keys == t.members.Keys
    ensures ElementsOf(done, MembersOf(t, relay)) && NoRepeats(done)
  {
  }

  /** The outer loop: each group known, new and named, then its memberships. */
  method PlaceGroups(t: Tables, relay: int, layout: seq<LayoutGroup>)
    returns (ok: bool, groups: map<int, Group>, members: map<int, Member>, no: nat)
    requires relay in t.relays && |layout| == |GroupsOf(t, relay)|
    ensures !ok ==> !Accepted(t, relay, layout)
    ensures ok ==> ElementsOf(GroupIds(layout), GroupsOf(t, relay)) && NoRepeats(GroupIds(layout)) && Named(layout)
    ensures ok ==> ElementsOf(Flat(layout), MembersOf(t, relay)) && NoRepeats(Flat(layout))
    ensures ok ==> no == |Flat(layout)| && GroupsPlaced(t, groups, members, relay, layout, |layout|)
    ensures ok ==> exists seen :: Placing(t, relay, groups, members, Flat(layout), seen, |layout|, 0)
  {
    hide Placing, GroupsPlaced, Flat, MembersOf;
    ghost var ids := GroupIds(layout);
    var seenGroups: set<int>, seenMembers: set<int> := {}, {};
    groups, members, no := t.groups, t.members, 0;
    Start(t, relay, layout);
    for gi := 0 to |layout|
      invariant seenGroups == Elements(ids[..gi]) && seenMembers == Elements(Flat(layout[..gi])) && no == |Flat(layout[..gi])|
      invariant Placing(t, relay, groups, members, Flat(layout[..gi]), seenGroups, gi, 0)
      invariant GroupsPlaced(t, groups, members, relay, layout, gi)
      invariant ElementsOf(ids[..gi], GroupsOf(t, relay)) && NoRepeats(ids[..gi]) && Named(layout[..gi])
    {
      var g := layout[gi];
      assert ids[gi] == g.id && ids[..gi + 1] == ids[..gi] + [g.id] && layout[..gi + 1] == layout[..gi] + [g];
      if g.id !in t.groups || t.groups[g.id].relay != relay {
        NotElements(ids, gi, GroupsOf(t, relay));
        ok := false;
        return;
      }
      if g.id in seenGroups {
        Repeats(ids, gi);
        ok := false;
        return;
      }
      if Trim(g.name) == "" {
        ok := false;
        return;
      }
      PlaceGroup(t, relay, groups, members, Flat(layout[..gi]), seenGroups, gi, g.id, Trim(g.name));
      GroupsGrow(t, groups, members, relay, layout, gi, g.id, Group(relay, Trim(g.name), gi));
      groups := groups[g.id := Group(relay, Trim(g.name), gi)];
      seenGroups := seenGroups + {g.id};
      var before := members;
      ok, members, seenMembers, no := PlaceMembers(t, relay, layout, gi, groups, members, seenGroups, seenMembers, no);
      if !ok {
        return;
      }
      GroupsStayPlaced(t, groups, before, groups, members, relay, layout, gi);
      OneGroupMore(t, groups, members, relay, layout, gi);
    }
    assert layout[..|layout|] == layout && ids[..|layout|] == ids;
    Keys(t, relay, groups, members, Flat(layout), seenGroups, |layout|);
    ok := true;
  }

  lemma Start(t: Tables, relay: int, layout: seq<LayoutGroup>)
    ensures layout[..0] == [] && Flat([]) == [] && GroupsPlaced(t, t.groups, t.members, relay, layout, 0)
    ensures Placing(t, relay, t.groups, t.members, [], {}, 0, 0) && GroupIds(layout)[..0] == []
  {
  }

  lemma GroupsGrow(t: Tables, groups: map<int, Group>, members: map<int, Member>, relay: int, layout: seq<LayoutGroup>, gi: nat, g: int, row: Group)
    requires GroupsPlaced(t, groups, members, relay, layout, gi) && g !in Elements(GroupIds(layout)[..gi])
    ensures GroupsPlaced(t, groups[g := row], members, relay, layout, gi)
  {
    forall i | 0 <= i < gi ensures layout[i].id != g {
      assert GroupIds(layout)[..gi][i] == layout[i].id;
    }
  }

  lemma OneGroupMore(t: Tables, groups: map<int, Group>, members: map<int, Member>, relay: int, layout: seq<LayoutGroup>, gi: nat)
    requires GroupsPlaced(t, groups, members, relay, layout, gi) && gi < |layout|
    requires layout[gi].id in groups && groups[layout[gi].id] == Group(relay, Trim(layout[gi].name), gi)
    requires SlotsOf(t, members, layout[gi], |layout[gi].members|)
    ensures GroupsPlaced(t, groups, members, relay, layout, gi + 1)
  {
  }
}
