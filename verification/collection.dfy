/**
 * Records and the list-level computations shared by the user store and the
 * tool store: id assignment (`Math.max` over the ids), lookup by id
 * (`findIndex`) and removal by id (`filter`).  Both handlers run the same
 * algorithm over an ordered list of records.
 */
module Collection {

  datatype Option<+T> = None | Some(value: T)

  /** A stored record: its integer id and the entity's remaining fields. */
  datatype Record<P> = Record(id: int, data: P)

  /** Some record of `s` carries `id`. */
  predicate HasId<P>(s: seq<Record<P>>, id: int)
  {
    exists i :: 0 <= i < |s| && s[i].id == id
  }

  /** No two records of `s` share an id. */
  predicate UniqueIds<P>(s: seq<Record<P>>)
  {
    forall i, j :: 0 <= i < j < |s| ==> s[i].id != s[j].id
  }

  /** The ids of `s`, in list order. */
  function Ids<P>(s: seq<Record<P>>): (ids: seq<int>)
    ensures |ids| == |s|
    ensures forall i :: 0 <= i < |s| ==> ids[i] == s[i].id
  {
    seq(|s|, i requires 0 <= i < |s| => s[i].id)
  }

  /**
   * `Math.max(...ids, 0)`: the largest id of `s`, or 0 when `s` is empty or
   * every id is negative.
   */
  function MaxId<P>(s: seq<Record<P>>): (m: int)
    ensures m >= 0
    ensures forall i :: 0 <= i < |s| ==> s[i].id <= m
    ensures m == 0 || HasId(s, m)
  {
    if s == [] then 0
    else
      var rest := MaxId(s[1..]);
      if s[0].id > rest then s[0].id else rest
  }

  /** The id the store assigns to a new record: one past `MaxId`. */
  function NewId<P>(s: seq<Record<P>>): (id: int)
    ensures id >= 1
    ensures forall i :: 0 <= i < |s| ==> s[i].id < id
    ensures !HasId(s, id)
    ensures id == 1 || HasId(s, id - 1)
  {
    MaxId(s) + 1
  }

  /** `findIndex(r => r.id === id)`: the first position holding `id`, or -1. */
  function FindIndex<P>(s: seq<Record<P>>, id: int): (i: int)
    ensures -1 <= i < |s|
    ensures i == -1 <==> !HasId(s, id)
    ensures 0 <= i ==> s[i].id == id && forall j :: 0 <= j < i ==> s[j].id != id
  {
    if s == [] then -1
    else if s[0].id == id then 0
    else
      var k := FindIndex(s[1..], id);
      if k == -1 then -1 else k + 1
  }

  /** `filter(r => r.id !== id)`: every record whose id differs from `id`. */
  function Without<P>(s: seq<Record<P>>, id: int): (r: seq<Record<P>>)
    ensures |r| <= |s|
    ensures forall k :: 0 <= k < |r| ==> r[k] in s && r[k].id != id
    ensures forall k :: 0 <= k < |s| && s[k].id != id ==> s[k] in r
    ensures |r| == |s| <==> !HasId(s, id)
  {
    if s == [] then []
    else
      var rest := Without(s[1..], id);
      assert forall k :: 0 <= k < |s[1..]| ==> s[1..][k] == s[k + 1];
      if s[0].id == id then rest else [s[0]] + rest
  }

  /**
   * The filter distributes over concatenation: removal keeps the surviving
   * records in their original relative order.
   */
  lemma {:induction false} WithoutConcat<P>(a: seq<Record<P>>, b: seq<Record<P>>, id: int)
    ensures Without(a + b, id) == Without(a, id) + Without(b, id)
  {
    if a == [] {
      assert a + b == b;
    } else {
      assert (a + b)[0] == a[0];
      assert (a + b)[1..] == a[1..] + b;
      WithoutConcat(a[1..], b, id);
    }
  }

  /** On one record the filter keeps it exactly when its id differs. */
  lemma WithoutSingle<P>(x: Record<P>, id: int)
    ensures Without([x], id) == if x.id == id then [] else [x]
  {
    assert [x][1..] == [];
  }

  /** Removing an id no record carries leaves the list as it was. */
  lemma {:induction false} WithoutAbsent<P>(s: seq<Record<P>>, id: int)
    requires !HasId(s, id)
    ensures Without(s, id) == s
  {
    if s != [] {
      assert s[0].id != id;
      assert forall k :: 0 <= k < |s[1..]| ==> s[1..][k] == s[k + 1];
      WithoutAbsent(s[1..], id);
      assert s == [s[0]] + s[1..];
    }
  }

  /** The tail of a list with unique ids has unique ids and lacks the head's id. */
  lemma TailUnique<P>(s: seq<Record<P>>)
    requires s != [] && UniqueIds(s)
    ensures UniqueIds(s[1..]) && !HasId(s[1..], s[0].id)
  {
    assert forall k :: 0 <= k < |s[1..]| ==> s[1..][k] == s[k + 1];
  }

  /** The filter introduces no id the list did not already have. */
  lemma WithoutNoNewIds<P>(s: seq<Record<P>>, id: int, x: int)
    requires !HasId(s, x)
    ensures !HasId(Without(s, id), x)
  {
    var r := Without(s, id);
    forall j | 0 <= j < |r| ensures r[j].id != x {
      assert r[j] in s;
    }
  }

  /** A record whose id the rest lacks can head a list with unique ids. */
  lemma ConsUnique<P>(x: Record<P>, r: seq<Record<P>>)
    requires UniqueIds(r) && !HasId(r, x.id)
    ensures UniqueIds([x] + r)
  {
    var c := [x] + r;
    forall i, j | 0 <= i < j < |c| ensures c[i].id != c[j].id {
      assert c[j] == r[j - 1];
      if i > 0 {
        assert c[i] == r[i - 1];
      }
    }
  }

  /** An id occurs in a non-empty list exactly when it is the head's or occurs in the tail. */
  lemma HasIdCons<P>(s: seq<Record<P>>, id: int)
    requires s != []
    ensures HasId(s, id) <==> s[0].id == id || HasId(s[1..], id)
  {
    assert forall k :: 0 <= k < |s[1..]| ==> s[1..][k] == s[k + 1];
    if HasId(s, id) && s[0].id != id {
      var k :| 0 <= k < |s| && s[k].id == id;
      assert s[1..][k - 1].id == id;
    }
  }

  /**
   * Removal keeps ids unique; when the ids are unique and `id` is present,
   * exactly one record is removed.
   */
  lemma {:induction false} WithoutKeepsUnique<P>(s: seq<Record<P>>, id: int)
    requires UniqueIds(s)
    ensures UniqueIds(Without(s, id))
    ensures HasId(s, id) ==> |Without(s, id)| == |s| - 1
  {
    if s != [] {
      var t := s[1..];
      TailUnique(s);
      HasIdCons(s, id);
      WithoutKeepsUnique(t, id);
      if s[0].id != id {
        WithoutNoNewIds(t, id, s[0].id);
        ConsUnique(s[0], Without(t, id));
      }
    }
  }

  /** Appending a record with the assigned new id keeps ids unique. */
  lemma AppendNewKeepsUnique<P>(s: seq<Record<P>>, d: P)
    requires UniqueIds(s)
    ensures UniqueIds(s + [Record(NewId(s), d)])
  {
    var n := NewId(s);
    var t := s + [Record(n, d)];
    assert forall k :: 0 <= k < |s| ==> t[k] == s[k];
    assert forall k :: 0 <= k < |s| ==> t[k].id != n;
    assert t[|s|].id == n;
    forall i, j | 0 <= i < j < |t| ensures t[i].id != t[j].id {
      if j < |s| {
        assert t[i] == s[i] && t[j] == s[j];
      }
    }
  }

  /**
   * Whatever the list, looking the assigned new id up after the append finds
   * the appended position: no earlier record carries it.
   */
  lemma AppendNewFound<P>(s: seq<Record<P>>, d: P)
    ensures FindIndex(s + [Record(NewId(s), d)], NewId(s)) == |s|
  {
    var n := NewId(s);
    var t := s + [Record(n, d)];
    assert forall k :: 0 <= k < |s| ==> t[k] == s[k];
    assert t[|s|].id == n;
  }

  /** After a create, the list holds the new record exactly once. */
  lemma AppendNewOnce<P>(s: seq<Record<P>>, d: P)
    ensures multiset(s + [Record(NewId(s), d)])[Record(NewId(s), d)] == 1
  {
    var x := Record(NewId(s), d);
    assert x !in s by {
      forall k | 0 <= k < |s| ensures s[k] != x {
        assert s[k].id < x.id;
      }
    }
    assert multiset(s)[x] == 0;
  }

  /**
   * Overwriting a record by one carrying the same id leaves the id list,
   * hence the multiset of ids and their uniqueness, unchanged.
   */
  lemma ReplaceKeepsIds<P>(s: seq<Record<P>>, i: int, x: Record<P>)
    requires 0 <= i < |s| && s[i].id == x.id
    ensures Ids(s[i := x]) == Ids(s)
    ensures multiset(Ids(s[i := x])) == multiset(Ids(s))
    ensures UniqueIds(s) ==> UniqueIds(s[i := x])
  {
    assert forall k :: 0 <= k < |s| ==> s[i := x][k].id == s[k].id;
  }

  /**
   * Create followed by delete of the new id gives back the original list
   * (the new id is fresh, so no earlier record is removed).
   */
  lemma CreateThenDelete<P>(s: seq<Record<P>>, d: P)
    ensures Without(s + [Record(NewId(s), d)], NewId(s)) == s
  {
    WithoutConcat(s, [Record(NewId(s), d)], NewId(s));
    WithoutSingle(Record(NewId(s), d), NewId(s));
    WithoutAbsent(s, NewId(s));
  }
}
