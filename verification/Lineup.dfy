/** Relay lineups: membership operations and layouts, and the channel numbers they keep
    (internal/core/store/relays.go). */
module Lineup {
  import opened Seqs
  import opened Text
  import opened StableSorting

  datatype Group = Group(relay: int, name: string, sort: int)

  datatype Member = Member(relay: int, group: int, channel: string, number: int, sort: int)

  datatype Tables = Tables(relays: set<int>, channels: set<string>, groups: map<int, Group>, members: map<int, Member>)

  /** Foreign keys and the unique (relay, channel) pair. */
  predicate TablesInv(t: Tables) {
    && (forall g :: g in t.groups ==> t.groups[g].relay in t.relays)
    && (forall m :: m in t.members ==> Placed(t, t.members[m]))
    && (forall m, n :: m in t.members && n in t.members && SamePair(t.members[m], t.members[n]) ==> m == n)
  }

  predicate SamePair(a: Member, b: Member) {
    a.relay == b.relay && a.channel == b.channel
  }

  predicate Placed(t: Tables, m: Member) {
    m.group in t.groups && t.groups[m.group].relay == m.relay && m.channel in t.channels
  }

  // ---------------------------------------------------------------- lineup order

  /** ORDER BY group order, member order, id. */
  predicate Precedes(t: Tables, a: int, b: int)
    requires a in t.members && b in t.members && t.members[a].group in t.groups && t.members[b].group in t.groups
  {
    var ga, gb := t.groups[t.members[a].group].sort, t.groups[t.members[b].group].sort;
    ga < gb || (ga == gb && (t.members[a].sort < t.members[b].sort || (t.members[a].sort == t.members[b].sort && a < b)))
  }

  predicate Of(t: Tables, relay: int, m: int) {
    m in t.members && t.members[m].relay == relay && t.members[m].group in t.groups
  }

  /** ids lists the relay's memberships, each once, in lineup order. */
  ghost predicate IsLineup(t: Tables, relay: int, ids: seq<int>) {
    && (forall m :: m in ids <==> m in t.members && t.members[m].relay == relay)
    && (forall i :: 0 <= i < |ids| ==> Of(t, relay, ids[i]))
    && forall i, j :: 0 <= i < j < |ids| ==> Precedes(t, ids[i], ids[j])
  }

  /** The numbers in lineup order are exactly 1, 2, ..., n. */
  ghost predicate Numbered(t: Tables, relay: int) {
    exists ids :: IsLineup(t, relay, ids) && forall i :: 0 <= i < |ids| ==> t.members[ids[i]].number == i + 1
  }

  ghost predicate AllNumbered(t: Tables) {
    forall relay :: relay in t.relays ==> Numbered(t, relay)
  }

  /** A relay has one lineup. */
  lemma {:induction false} LineupUnique(t: Tables, relay: int, a: seq<int>, b: seq<int>)
    requires IsLineup(t, relay, a) && IsLineup(t, relay, b)
    ensures a == b
  {
    PrefixesAgree(t, relay, a, b, |a|);
    PrefixesAgree(t, relay, b, a, |b|);
    assert a == a[..|a|] && b == b[..|a|];
  }

  /** Read side by side, two lineups agree as far as the first goes. */
  lemma {:induction false} PrefixesAgree(t: Tables, relay: int, a: seq<int>, b: seq<int>, k: nat)
    requires IsLineup(t, relay, a) && IsLineup(t, relay, b) && k <= |a|
    ensures k <= |b| && a[..k] == b[..k]
  {
    if k > 0 {
      PrefixesAgree(t, relay, a, b, k - 1);
      assert forall i :: 0 <= i < k - 1 ==> a[i] == a[..k - 1][i] == b[..k - 1][i] == b[i];
      assert a[k - 1] in b;
      var j :| 0 <= j < |b| && b[j] == a[k - 1];
      assert j >= k - 1;
      assert b[k - 1] in a;
      var i :| 0 <= i < |a| && a[i] == b[k - 1];
      assert i >= k - 1;
      assert i == k - 1;
      assert a[..k] == a[..k - 1] + [a[k - 1]] && b[..k] == b[..k - 1] + [b[k - 1]];
    }
  }

  // ---------------------------------------------------------------- what leaves lineups alone

  /** Another relay's rows, and the rows' places in the order, are the same. */
  predicate SameRows(t: Tables, t': Tables, relay: int) {
    && (forall m :: m in t.members && t.members[m].relay == relay ==> m in t'.members && t'.members[m] == t.members[m])
    && (forall m :: m in t'.members && t'.members[m].relay == relay ==> m in t.members && t'.members[m] == t.members[m])
    && (forall g :: g in t.groups && t.groups[g].relay == relay ==> g in t'.groups && t'.groups[g].sort == t.groups[g].sort)
  }

  lemma NumberedFrame(t: Tables, t': Tables, relay: int)
    requires TablesInv(t) && SameRows(t, t', relay) && Numbered(t, relay)
    ensures Numbered(t', relay)
  {
    var ids :| IsLineup(t, relay, ids) && forall i :: 0 <= i < |ids| ==> t.members[ids[i]].number == i + 1;
    assert forall i :: 0 <= i < |ids| ==> Placed(t, t.members[ids[i]]);
    assert IsLineup(t', relay, ids);
  }

  // ---------------------------------------------------------------- the ordered query

  function InsertId(t: Tables, ids: seq<int>, m: int): seq<int>
    requires forall i :: 0 <= i < |ids| ==> ids[i] in t.members && t.members[ids[i]].group in t.groups
    requires m in t.members && t.members[m].group in t.groups
  {
    if ids == [] || Precedes(t, m, ids[0]) then [m] + ids else [ids[0]] + InsertId(t, ids[1..], m)
  }

  predicate Ascending(t: Tables, ids: seq<int>)
    requires forall i :: 0 <= i < |ids| ==> ids[i] in t.members && t.members[ids[i]].group in t.groups
  {
    forall i, j :: 0 <= i < j < |ids| ==> Precedes(t, ids[i], ids[j])
  }

  lemma {:induction false} InsertIdKeeps(t: Tables, ids: seq<int>, m: int)
    requires forall i :: 0 <= i < |ids| ==> ids[i] in t.members && t.members[ids[i]].group in t.groups
    requires m in t.members && t.members[m].group in t.groups && m !in ids && Ascending(t, ids)
    ensures forall k :: k in InsertId(t, ids, m) <==> k in ids || k == m
    ensures forall i :: 0 <= i < |InsertId(t, ids, m)| ==>
              InsertId(t, ids, m)[i] in t.members && t.members[InsertId(t, ids, m)[i]].group in t.groups
    ensures Ascending(t, InsertId(t, ids, m))
  {
    if ids != [] && !Precedes(t, m, ids[0]) {
      InsertIdKeeps(t, ids[1..], m);
      var r := InsertId(t, ids[1..], m);
      assert ids[0] in ids && ids[0] != m;
      forall i | 0 <= i < |r| ensures Precedes(t, ids[0], r[i]) {
        assert r[i] in r;
        if r[i] != m {
          var j :| 0 <= j < |ids[1..]| && ids[1..][j] == r[i];
          assert Precedes(t, ids[0], ids[j + 1]);
        }
      }
    }
  }

  /** SELECT m.id ... WHERE m.relay_id = ? ORDER BY g.sort_order, m.sort_order, m.id. */
  method QueryLineup(t: Tables, relay: int) returns (ids: seq<int>)
    requires TablesInv(t)
    ensures IsLineup(t, relay, ids)
  {
    hide SamePair, InsertId, Precedes;
    ids := [];
    var todo := t.members.Keys;
    while todo != {}
      invariant todo <= t.members.Keys
      invariant forall m :: m in ids <==> m in t.members && t.members[m].relay == relay && m !in todo
      invariant forall i :: 0 <= i < |ids| ==> ids[i] in t.members && t.members[ids[i]].group in t.groups
      invariant Ascending(t, ids)
      decreases todo
    {
      var m := Pick(todo);
      if t.members[m].relay == relay {
        assert Placed(t, t.members[m]);
        InsertIdKeeps(t, ids, m);
        ids := InsertId(t, ids, m);
      }
      todo := todo - {m};
    }
  }

  // ---------------------------------------------------------------- renumbering

  /** t' is t with the relay's numbers set to the lineup positions, nothing else changed. */
  ghost predicate Renumbered(t: Tables, t': Tables, relay: int) {
    && t' == t.(members := t'.members) && t'.members.Keys == t.members.Keys
    && (forall m :: m in t.members && t.members[m].relay != relay ==> t'.members[m] == t.members[m])
    && (forall m :: m in t.members && t.members[m].relay == relay ==>
          t'.members[m] == t.members[m].(number := t'.members[m].number))
    && Numbered(t', relay)
  }

  /** renumberRelayMemberships: the query, then one UPDATE per row. */
  method Renumber(t: Tables, relay: int) returns (t': Tables)
    requires TablesInv(t)
    ensures Renumbered(t, t', relay)
  {
    var ids := QueryLineup(t, relay);
    var members := t.members;
    hide TablesInv, Precedes;
    for i := 0 to |ids|
      invariant members.Keys == t.members.Keys
      invariant forall m :: m in t.members ==> members[m] == t.members[m].(number := members[m].number)
      invariant forall m :: m in t.members && t.members[m].relay != relay ==> members[m] == t.members[m]
      invariant forall k :: 0 <= k < i ==> members[ids[k]].number == k + 1
    {
      assert forall k :: 0 <= k < i ==> ids[k] != ids[i] by {
        Irreflexive(t, ids, i);
      }
      assert Of(t, relay, ids[i]);
      members := members[ids[i] := members[ids[i]].(number := i + 1)];
    }
    t' := t.(members := members);
    SameOrder(t, t', relay, ids);
  }

  lemma Irreflexive(t: Tables, ids: seq<int>, i: nat)
    requires i < |ids|
    requires forall k :: 0 <= k < |ids| ==> ids[k] in t.members && t.members[ids[k]].group in t.groups
    requires Ascending(t, ids)
    ensures forall k :: 0 <= k < i ==> ids[k] != ids[i]
  {
    forall k | 0 <= k < i ensures ids[k] != ids[i] {
      assert Precedes(t, ids[k], ids[i]);
    }
  }

  /** Numbers play no part in the order. */
  lemma SameOrder(t: Tables, t': Tables, relay: int, ids: seq<int>)
    requires IsLineup(t, relay, ids) && t'.groups == t.groups && t'.members.Keys == t.members.Keys
    requires forall m :: m in t.members ==> t'.members[m] == t.members[m].(number := t'.members[m].number)
    ensures IsLineup(t', relay, ids)
  {
  }

  lemma RenumberedKeeps(t: Tables, t': Tables, relay: int)
    requires TablesInv(t) && Renumbered(t, t', relay)
    requires forall r :: r in t.relays && r != relay ==> Numbered(t, r)
    ensures TablesInv(t') && AllNumbered(t')
  {
    forall m | m in t'.members ensures Placed(t', t'.members[m]) {
      assert Placed(t, t.members[m]);
    }
    forall m, n | m in t'.members && n in t'.members && SamePair(t'.members[m], t'.members[n]) ensures m == n {
      assert SamePair(t.members[m], t.members[n]);
    }
    forall r | r in t'.relays ensures Numbered(t', r) {
      if r != relay {
        NumberedFrame(t, t', r);
      }
    }
  }

  // ---------------------------------------------------------------- membership operations

  datatype Input = Input(channel: string, group: int, sort: Option<int>)

  datatype Error = NotFound | Invalid | Conflict

  datatype Result<T> = Ok(value: T) | Err(error: Error)

  /** validateMembershipInputQ. */
  predicate ValidInput(t: Tables, relay: int, in': Input) {
    Trim(in'.channel) != "" && in'.group > 0 && in'.group in t.groups && t.groups[in'.group].relay == relay
    && in'.channel in t.channels
  }

  predicate Taken(t: Tables, relay: int, channel: string, except: set<int>) {
    exists m :: m in t.members && m !in except && t.members[m].relay == relay && t.members[m].channel == channel
  }

  /** ord is one past the highest member order of the group, 0 in an empty one. */
  predicate IsNextSort(t: Tables, group: int, ord: int) {
    if forall m :: m in t.members ==> t.members[m].group != group then ord == 0
    else
      (forall m :: m in t.members && t.members[m].group == group ==> t.members[m].sort < ord)
      && exists m :: m in t.members && t.members[m].group == group && t.members[m].sort == ord - 1
  }

  /** What an add, update or delete leaves behind: the row in question as asked for, all other
      rows as they were but for the relay's numbers, and the relay renumbered. */
  ghost predicate Committed(t: Tables, rows: map<int, Member>, t': Tables, relay: int) {
    TablesInv(t.(members := rows)) && Renumbered(t.(members := rows), t', relay)
  }

  /** A committed row is as asked for, its number apart. */
  lemma RowIsCommitted(t: Tables, rows: map<int, Member>, t': Tables, relay: int, id: int)
    requires Committed(t, rows, t', relay) && id in rows
    ensures id in t'.members && t'.members[id] == rows[id].(number := t'.members[id].number)
  {
    hide TablesInv, Numbered;
  }

  class RelayStore {
    var t: Tables
    var nextId: int   // AUTOINCREMENT

    ghost predicate Valid()
      reads this
    {
      TablesInv(t) && AllNumbered(t) && forall m :: m in t.members ==> m < nextId
    }

    method NextSort(group: int) returns (ord: int)
      ensures IsNextSort(t, group, ord)
    {
      ord := 0;
      var found := false;
      var todo := t.members.Keys;
      while todo != {}
        invariant todo <= t.members.Keys
        invariant !found ==> ord == 0 && forall m :: m in t.members && m !in todo ==> t.members[m].group != group
        invariant found ==> exists m :: m in t.members && t.members[m].group == group && t.members[m].sort == ord - 1
        invariant found ==> forall m :: m in t.members && m !in todo && t.members[m].group == group ==> t.members[m].sort < ord
        decreases todo
      {
        var m := Pick(todo);
        if t.members[m].group == group && (!found || t.members[m].sort >= ord) {
          found, ord := true, t.members[m].sort + 1;
        }
        todo := todo - {m};
      }
    }

    method IsTaken(relay: int, channel: string, except: set<int>) returns (taken: bool)
      ensures taken == Taken(t, relay, channel, except)
    {
      var todo := t.members.Keys;
      while todo != {}
        invariant todo <= t.members.Keys
        invariant forall m :: m in t.members && m !in todo && m !in except ==>
                    t.members[m].relay != relay || t.members[m].channel != channel
        decreases todo
      {
        var m := Pick(todo);
        if m !in except && t.members[m].relay == relay && t.members[m].channel == channel {
          return true;
        }
        todo := todo - {m};
      }
      taken := false;
    }

    method AddMembership(relay: int, in': Input) returns (r: Result<int>)
      requires Valid()
      modifies this
      ensures Valid()
      ensures r.Err? ==> t == old(t)
      ensures r.Ok? <==> ValidInput(old(t), relay, in') && !Taken(old(t), relay, in'.channel, {})
      ensures r.Ok? ==> r.value !in old(t).members
      ensures r.Ok? ==> exists ord ::
                (if in'.sort.Some? then ord == in'.sort.value else IsNextSort(old(t), in'.group, ord))
                && Committed(old(t), old(t).members[r.value := Member(relay, in'.group, in'.channel, 0, ord)], t, relay)
    {
      hide TablesInv, AllNumbered, Renumbered, IsNextSort;
      if !ValidInput(t, relay, in') {
        return Err(Invalid);
      }
      var ord;
      if in'.sort.Some? {
        ord := in'.sort.value;
      } else {
        ord := NextSort(in'.group);
      }
      var taken := IsTaken(relay, in'.channel, {});
      if taken {
        return Err(Conflict);
      }
      var id := nextId;
      var rows := t.members[id := Member(relay, in'.group, in'.channel, 0, ord)];
      Inserted(t, id, rows[id]);
      Commit(rows, relay);
      nextId := id + 1;
      r := Ok(id);
    }

    /** Renumber and keep. */
    method Commit(rows: map<int, Member>, relay: int)
      requires TablesInv(t.(members := rows)) && forall q :: q in t.relays && q != relay ==> Numbered(t.(members := rows), q)
      modifies `t
      ensures Committed(old(t), rows, t, relay)
      ensures TablesInv(t) && AllNumbered(t) && t.members.Keys == rows.Keys
    {
      hide TablesInv, AllNumbered, Numbered;
      var t' := Renumber(t.(members := rows), relay);
      RenumberedKeeps(t.(members := rows), t', relay);
      t := t';
    }

    /** An unset channel or group means the present one. */
    method UpdateMembership(id: int, in': Input) returns (r: Result<int>)
      requires Valid()
      modifies this
      ensures Valid()
      ensures r.Err? ==> t == old(t)
      ensures id !in old(t).members ==> r == Err(NotFound)
      ensures id in old(t).members ==>
                var was := old(t).members[id]; var to := Defaults(was, in');
                (r.Ok? <==> ValidInput(old(t), was.relay, to) && !Taken(old(t), was.relay, to.channel, {id}))
                && (r.Ok? ==> r.value == id
                              && Committed(old(t), old(t).members[id := Moved(was, to)], t, was.relay))
      ensures r.Ok? ==>
                id in old(t).members && id in t.members &&
                var was, row := old(t).members[id], t.members[id];
                row.relay == was.relay && row.channel == (if Trim(in'.channel) == "" then was.channel else in'.channel)
                && row.group == (if in'.group == 0 then was.group else in'.group)
                && row.sort == if in'.sort.Some? then in'.sort.value else was.sort
    {
      hide TablesInv, AllNumbered, Renumbered;
      if id !in t.members {
        return Err(NotFound);
      }
      var was := t.members[id];
      var to := Defaults(was, in');
      if !ValidInput(t, was.relay, to) {
        return Err(Invalid);
      }
      var taken := IsTaken(was.relay, to.channel, {id});
      if taken {
        return Err(Conflict);
      }
      var rows := t.members[id := Moved(was, to)];
      Replaced(t, id, rows[id]);
      assert rows.Keys == t.members.Keys;
      Commit(rows, was.relay);
      RowIsCommitted(old(t), rows, t, was.relay, id);
      r := Ok(id);
    }

    method DeleteMembership(id: int) returns (r: Result<int>)
      requires Valid()
      modifies this
      ensures Valid()
      ensures r.Err? ==> t == old(t)
      ensures if id in old(t).members
              then r == Ok(id) && Committed(old(t), old(t).members - {id}, t, old(t).members[id].relay)
              else r == Err(NotFound)
    {
      hide TablesInv, AllNumbered, Renumbered;
      if id !in t.members {
        return Err(NotFound);
      }
      Removed(t, id);
      Commit(t.members - {id}, t.members[id].relay);
      r := Ok(id);
    }
  }

  function Defaults(was: Member, in': Input): Input {
    Input(if Trim(in'.channel) == "" then was.channel else in'.channel, if in'.group == 0 then was.group else in'.group, in'.sort)
  }

  function Moved(was: Member, to: Input): Member {
    was.(group := to.group, channel := to.channel, sort := if to.sort.Some? then to.sort.value else was.sort)
  }

  lemma Inserted(t: Tables, id: int, row: Member)
    requires TablesInv(t) && AllNumbered(t) && id !in t.members
    requires Placed(t, row) && !Taken(t, row.relay, row.channel, {})
    ensures TablesInv(t.(members := t.members[id := row]))
    ensures forall q :: q in t.relays && q != row.relay ==> Numbered(t.(members := t.members[id := row]), q)
  {
    hide Numbered;
    var t' := t.(members := t.members[id := row]);
    forall m | m in t'.members ensures Placed(t', t'.members[m]) {
      assert m == id || Placed(t, t.members[m]);
    }
    forall q | q in t.relays && q != row.relay ensures Numbered(t', q) {
      NumberedFrame(t, t', q);
    }
  }

  lemma Replaced(t: Tables, id: int, row: Member)
    requires TablesInv(t) && AllNumbered(t) && id in t.members && row.relay == t.members[id].relay
    requires Placed(t, row) && !Taken(t, row.relay, row.channel, {id})
    ensures TablesInv(t.(members := t.members[id := row]))
    ensures forall q :: q in t.relays && q != row.relay ==> Numbered(t.(members := t.members[id := row]), q)
  {
    hide Numbered;
    var t' := t.(members := t.members[id := row]);
    forall m | m in t'.members ensures Placed(t', t'.members[m]) {
      assert m == id || Placed(t, t.members[m]);
    }
    forall q | q in t.relays && q != row.relay ensures Numbered(t', q) {
      NumberedFrame(t, t', q);
    }
  }

  lemma Removed(t: Tables, id: int)
    requires TablesInv(t) && AllNumbered(t) && id in t.members
    ensures TablesInv(t.(members := t.members - {id}))
    ensures forall q :: q in t.relays && q != t.members[id].relay ==> Numbered(t.(members := t.members - {id}), q)
  {
    hide Numbered;
    var t' := t.(members := t.members - {id});
    forall m | m in t'.members ensures Placed(t', t'.members[m]) {
      assert Placed(t, t.members[m]);
    }
    forall m, n | m in t'.members && n in t'.members && SamePair(t'.members[m], t'.members[n]) ensures m == n {
      assert SamePair(t.members[m], t.members[n]);
    }
    forall q | q in t.relays && q != t.members[id].relay ensures Numbered(t', q) {
      NumberedFrame(t, t', q);
    }
  }
}
