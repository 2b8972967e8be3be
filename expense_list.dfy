/**
 * The list operations behind the store's mutators: the id a new record
 * gets, replacing records by id, and filtering records out by id.
 */
module ExpenseList {
  import opened Model

  /** No two records share an id. */
  predicate UniqueIds(s: seq<Expense>) {
    forall i, j :: 0 <= i < j < |s| ==> s[i].id != s[j].id
  }

  /** The largest id in a non-empty list, like `Math.max(...ids)`. */
  function MaxId(s: seq<Expense>): (r: int)
    requires s != []
    ensures exists i :: 0 <= i < |s| && s[i].id == r
    ensures forall i :: 0 <= i < |s| ==> s[i].id <= r
  {
    if |s| == 1 then s[0].id
    else
      var m := MaxId(s[1..]);
      assert exists i :: 1 <= i < |s| && s[i].id == m by {
        var j :| 0 <= j < |s| - 1 && s[1..][j].id == m;
        assert s[j + 1].id == m;
      }
      if s[0].id >= m then s[0].id else m
  }

  /**
   * The id `addExpense` gives a new record: one more than the largest id in
   * the list, or 1 for an empty list. It exceeds every id in the list.
   */
  function NextId(s: seq<Expense>): (r: int)
    ensures s == [] ==> r == 1
    ensures s != [] ==> exists i :: 0 <= i < |s| && s[i].id == r - 1
    ensures forall i :: 0 <= i < |s| ==> s[i].id < r
  {
    if |s| > 0 then MaxId(s) + 1 else 1
  }

  /** Appending a record under `NextId` keeps the ids distinct. */
  lemma AddKeepsIdsUnique(s: seq<Expense>, d: ExpenseData)
    requires UniqueIds(s)
    ensures UniqueIds(s + [Expense(NextId(s), d)])
  {
    var t := s + [Expense(NextId(s), d)];
    forall i, j | 0 <= i < j < |t| ensures t[i].id != t[j].id {
      if j == |s| { assert t[i] == s[i]; }
    }
  }

  /** `updateExpense`'s map: every record with the id of `u` becomes `u`, the others stay. */
  function Replaced(s: seq<Expense>, u: Expense): (r: seq<Expense>)
    ensures |r| == |s|
    ensures forall i :: 0 <= i < |s| ==> r[i] == if s[i].id == u.id then u else s[i]
  {
    if s == [] then [] else [if s[0].id == u.id then u else s[0]] + Replaced(s[1..], u)
  }

  /** Replacing keeps every position's id, hence distinct ids, and is a no-op for an absent id. */
  lemma ReplacedKeepsIds(s: seq<Expense>, u: Expense)
    ensures forall i :: 0 <= i < |s| ==> Replaced(s, u)[i].id == s[i].id
    ensures UniqueIds(s) ==> UniqueIds(Replaced(s, u))
    ensures (forall i :: 0 <= i < |s| ==> s[i].id != u.id) ==> Replaced(s, u) == s
    ensures Replaced(Replaced(s, u), u) == Replaced(s, u)
  {
  }

  /** With distinct ids, writing back a record the list already holds changes nothing. */
  lemma ReplacedWithHeld(s: seq<Expense>, u: Expense)
    requires UniqueIds(s) && u in s
    ensures Replaced(s, u) == s
  {
    var k :| 0 <= k < |s| && s[k] == u;
    forall i | 0 <= i < |s| ensures Replaced(s, u)[i] == s[i] {
      if s[i].id == u.id && i != k {
        assert s[i].id == s[k].id;
      }
    }
  }

  /** `deleteExpense`'s filter: exactly the records whose id differs from `id`. */
  function Removed(s: seq<Expense>, id: int): (r: seq<Expense>)
    ensures |r| <= |s|
  {
    if s == [] then [] else (if s[0].id == id then [] else [s[0]]) + Removed(s[1..], id)
  }

  /** The records kept are exactly those of `s` whose id differs from `id`. */
  lemma {:induction false} RemovedMembers(s: seq<Expense>, id: int)
    ensures forall e :: e in Removed(s, id) <==> e in s && e.id != id
  {
    if s != [] {
      RemovedMembers(s[1..], id);
      assert forall e :: e in s <==> e == s[0] || e in s[1..];
    }
  }

  /** Filtering distributes over concatenation, so the kept records stay in list order. */
  lemma {:induction false} RemovedConcat(a: seq<Expense>, b: seq<Expense>, id: int)
    ensures Removed(a + b, id) == Removed(a, id) + Removed(b, id)
  {
    if a != [] {
      RemovedConcat(a[1..], b, id);
      var head := if a[0].id == id then [] else [a[0]];
      assert (a + b)[0] == a[0] && (a + b)[1..] == a[1..] + b;
      assert Removed(a + b, id) == head + Removed(a[1..] + b, id);
      assert Removed(a, id) == head + Removed(a[1..], id);
      assert head + (Removed(a[1..], id) + Removed(b, id)) == (head + Removed(a[1..], id)) + Removed(b, id);
    } else {
      assert a + b == b;
    }
  }

  /** Deleting an id no record has changes nothing. */
  lemma {:induction false} RemovedAbsent(s: seq<Expense>, id: int)
    requires forall i :: 0 <= i < |s| ==> s[i].id != id
    ensures Removed(s, id) == s
  {
    if s != [] {
      RemovedAbsent(s[1..], id);
    }
  }

  /** Deleting twice is deleting once. */
  lemma RemovedIdempotent(s: seq<Expense>, id: int)
    ensures Removed(Removed(s, id), id) == Removed(s, id)
  {
    var r := Removed(s, id);
    RemovedMembers(s, id);
    forall i | 0 <= i < |r| ensures r[i].id != id {
      assert r[i] in r;
    }
    RemovedAbsent(r, id);
  }

  /** Deleting keeps the remaining ids distinct. */
  lemma {:induction false} RemovedKeepsIdsUnique(s: seq<Expense>, id: int)
    requires UniqueIds(s)
    ensures UniqueIds(Removed(s, id))
  {
    if s != [] {
      RemovedKeepsIdsUnique(s[1..], id);
      var t := Removed(s[1..], id);
      RemovedMembers(s[1..], id);
      forall e | e in t ensures e.id != s[0].id {
        var k :| 0 <= k < |s| - 1 && s[1..][k] == e;
        assert s[k + 1] == e;
      }
    }
  }

  /** With distinct ids, deleting a present id removes exactly one record. */
  lemma {:induction false} RemovedOne(s: seq<Expense>, id: int, k: nat)
    requires UniqueIds(s) && k < |s| && s[k].id == id
    ensures |Removed(s, id)| == |s| - 1
  {
    if k == 0 {
      RemovedAbsent(s[1..], id);
    } else {
      RemovedOne(s[1..], id, k - 1);
    }
  }

  /**
   * Ids are fresh only with respect to the current list: deleting the record
   * just added and adding again hands out the same id once more.
   */
  lemma DeleteNewestThenAddReusesId(s: seq<Expense>, d: ExpenseData)
    ensures NextId(Removed(s + [Expense(NextId(s), d)], NextId(s))) == NextId(s)
  {
    var n := NextId(s);
    RemovedConcat(s, [Expense(n, d)], n);
    RemovedAbsent(s, n);
    assert Removed([Expense(n, d)], n) == [] + Removed([], n);
    assert s + [Expense(n, d)] != [] && Removed(s + [Expense(n, d)], n) == s;
  }
}
