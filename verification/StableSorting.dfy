/** Stable sorting by a total preorder: what sort.SliceStable and Array.prototype.sort
    promise, and that the promise leaves exactly one result. */
module StableSorting {

  ghost predicate TotalPreorder<T(!new)>(le: (T, T) -> bool) {
    && (forall a, b :: le(a, b) || le(b, a))
    && forall a, b, c :: le(a, b) && le(b, c) ==> le(a, c)
  }

  predicate Sorted<T>(s: seq<T>, le: (T, T) -> bool) {
    forall i, j :: 0 <= i < j < |s| ==> le(s[i], s[j])
  }

  predicate Same<T>(a: T, b: T, le: (T, T) -> bool) {
    le(a, b) && le(b, a)
  }

  /** The elements that tie with x, in their order. */
  function Ties<T>(s: seq<T>, x: T, le: (T, T) -> bool): seq<T> {
    if s == [] then []
    else (if Same(s[0], x, le) then [s[0]] else []) + Ties(s[1..], x, le)
  }

  /** Sorted, and ties keep their original order. */
  ghost predicate IsStableSort<T(!new)>(out: seq<T>, s: seq<T>, le: (T, T) -> bool) {
    Sorted(out, le) && forall x :: Ties(out, x, le) == Ties(s, x, le)
  }

  function Insert<T>(x: T, s: seq<T>, le: (T, T) -> bool): seq<T> {
    if s == [] || le(x, s[0]) then [x] + s else [s[0]] + Insert(x, s[1..], le)
  }

  function StableSort<T>(s: seq<T>, le: (T, T) -> bool): seq<T> {
    if s == [] then [] else Insert(s[0], StableSort(s[1..], le), le)
  }

  // ---------------------------------------------------------------- StableSort is one

  lemma {:induction false} InsertTies<T(!new)>(x: T, s: seq<T>, y: T, le: (T, T) -> bool)
    requires TotalPreorder(le)
    ensures Ties(Insert(x, s, le), y, le) == (if Same(x, y, le) then [x] else []) + Ties(s, y, le)
  {
    hide TotalPreorder, Same, Ties;
    if s == [] || le(x, s[0]) {
      TiesCons(x, s, y, le);
    } else {
      var r := Insert(x, s[1..], le);
      InsertTies(x, s[1..], y, le);
      NotBothTied(x, s[0], y, le);
      TiesCons(s[0], r, y, le);
      TiesCons(s[0], s[1..], y, le);
      assert s == [s[0]] + s[1..];
    }
  }

  lemma TiesCons<T(!new)>(x: T, s: seq<T>, y: T, le: (T, T) -> bool)
    ensures Ties([x] + s, y, le) == (if Same(x, y, le) then [x] else []) + Ties(s, y, le)
  {
    assert ([x] + s)[1..] == s;
  }

  lemma NotBothTied<T(!new)>(a: T, b: T, y: T, le: (T, T) -> bool)
    requires TotalPreorder(le) && !le(a, b)
    ensures !(Same(a, y, le) && Same(b, y, le))
  {
  }

  lemma {:induction false} InsertMembers<T(!new)>(x: T, s: seq<T>, le: (T, T) -> bool)
    ensures multiset(Insert(x, s, le)) == multiset{x} + multiset(s)
    ensures |Insert(x, s, le)| == |s| + 1
  {
    if s != [] && !le(x, s[0]) {
      InsertMembers(x, s[1..], le);
      assert s == [s[0]] + s[1..];
    }
  }

  lemma {:induction false} SortMembers<T(!new)>(s: seq<T>, le: (T, T) -> bool)
    ensures multiset(StableSort(s, le)) == multiset(s)
    ensures |StableSort(s, le)| == |s|
  {
    if s != [] {
      SortMembers(s[1..], le);
      InsertMembers(s[0], StableSort(s[1..], le), le);
      assert s == [s[0]] + s[1..];
    }
  }

  lemma {:induction false} InsertSorted<T(!new)>(x: T, s: seq<T>, le: (T, T) -> bool)
    requires TotalPreorder(le) && Sorted(s, le)
    ensures Sorted(Insert(x, s, le), le)
  {
    if s != [] && !le(x, s[0]) {
      var r := Insert(x, s[1..], le);
      InsertSorted(x, s[1..], le);
      InsertMembers(x, s[1..], le);
      forall e | e in r ensures le(s[0], e) {
        assert e in multiset(r);
        assert e == x || e in s[1..];
      }
    }
  }

  lemma {:induction false} StableSortIs<T(!new)>(s: seq<T>, le: (T, T) -> bool)
    requires TotalPreorder(le)
    ensures IsStableSort(StableSort(s, le), s, le)
    ensures multiset(StableSort(s, le)) == multiset(s) && |StableSort(s, le)| == |s|
  {
    if s != [] {
      var r := StableSort(s[1..], le);
      StableSortIs(s[1..], le);
      InsertSorted(s[0], r, le);
      InsertMembers(s[0], r, le);
      assert s == [s[0]] + s[1..];
      forall x ensures Ties(StableSort(s, le), x, le) == Ties(s, x, le) {
        InsertTies(s[0], r, x, le);
      }
    }
  }

  // ---------------------------------------------------------------- and it is the only one

  lemma {:induction false} TiesMember<T>(s: seq<T>, x: T, le: (T, T) -> bool)
    ensures forall e :: e in Ties(s, x, le) ==> e in s && Same(e, x, le)
    ensures Ties(s, x, le) != [] ==> exists e :: e in s && Same(e, x, le)
  {
    if s != [] {
      TiesMember(s[1..], x, le);
    }
  }

  lemma HeadIsLeast<T(!new)>(a: seq<T>, b: seq<T>, le: (T, T) -> bool)
    requires TotalPreorder(le) && Sorted(b, le) && a != []
    requires forall x :: Ties(a, x, le) == Ties(b, x, le)
    ensures b != [] && le(b[0], a[0])
  {
    assert a[0] in Ties(a, a[0], le);
    TiesMember(b, a[0], le);
    var e :| e in b && Same(e, a[0], le);
    var i :| 0 <= i < |b| && b[i] == e;
    assert le(b[0], b[i]);
  }

  /** Two sorted sequences with the same ties in the same order are the same sequence. */
  lemma {:induction false} SortedUnique<T(!new)>(a: seq<T>, b: seq<T>, le: (T, T) -> bool)
    requires TotalPreorder(le) && Sorted(a, le) && Sorted(b, le)
    requires forall x :: Ties(a, x, le) == Ties(b, x, le)
    ensures a == b
  {
    if a == [] {
      if b != [] {
        HeadIsLeast(b, a, le);
      }
    } else {
      HeadIsLeast(a, b, le);
      HeadIsLeast(b, a, le);
      assert Ties(a, a[0], le)[0] == a[0] && Ties(b, a[0], le)[0] == b[0];
      forall x ensures Ties(a[1..], x, le) == Ties(b[1..], x, le) {
        TiesTail(a, x, le);
        TiesTail(b, x, le);
      }
      SortedUnique(a[1..], b[1..], le);
      assert a == [a[0]] + a[1..] && b == [b[0]] + b[1..];
    }
  }

  lemma TiesTail<T>(s: seq<T>, x: T, le: (T, T) -> bool)
    requires s != []
    ensures Ties(s[1..], x, le) == if Same(s[0], x, le) then Ties(s, x, le)[1..] else Ties(s, x, le)
  {
  }

  /** The result of a stable sort is determined. */
  lemma StableSortUnique<T(!new)>(out: seq<T>, s: seq<T>, le: (T, T) -> bool)
    requires TotalPreorder(le) && IsStableSort(out, s, le)
    ensures out == StableSort(s, le)
  {
    StableSortIs(s, le);
    SortedUnique(out, StableSort(s, le), le);
  }

  lemma {:induction false} TiesConcat<T>(a: seq<T>, b: seq<T>, x: T, le: (T, T) -> bool)
    ensures Ties(a + b, x, le) == Ties(a, x, le) + Ties(b, x, le)
  {
    hide Same, Ties;
    if a == [] {
      assert a + b == b;
      NoTies(x, le);
    } else {
      var ab := a + b;
      assert ab[0] == a[0] && ab[1..] == a[1..] + b;
      TiesConcat(a[1..], b, x, le);
      TiesSplit(a, x, le);
      TiesSplit(ab, x, le);
    }
  }

  lemma NoTies<T>(x: T, le: (T, T) -> bool)
    ensures Ties([], x, le) == []
  {
  }

  lemma TiesSplit<T>(s: seq<T>, x: T, le: (T, T) -> bool)
    requires s != []
    ensures Ties(s, x, le) == (if Same(s[0], x, le) then [s[0]] else []) + Ties(s[1..], x, le)
  {
  }
}
