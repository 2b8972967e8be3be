/**
 * The list the expense screen shows (`filteredExpenses`): the records that
 * pass the category filter and the title search, newest date first, records
 * of the same date in list order.
 */
module Query {
  import opened Model
  import opened Strings
  import opened Wrappers

  /**
   * The category half of the filter: `'all'`, or the key of the record's
   * category. `'all'` passes every category, and a category key passes
   * exactly the category it names.
   */
  predicate CategoryMatches(filter: string, c: Category)
    ensures filter == "all" ==> CategoryMatches(filter, c)
    ensures forall k :: filter == CategoryName(k) ==> (CategoryMatches(filter, c) <==> c == k)
  {
    filter == "all" || filter == CategoryName(c)
  }

  /** The search half: an empty term, or the lower-cased title contains the lower-cased term. */
  predicate SearchMatches(term: string, title: string)
    ensures term == "" ==> SearchMatches(term, title)
  {
    term == "" || Contains(ToLower(title), ToLower(term))
  }

  /**
   * The search passes exactly when the lower-cased term occurs somewhere in the
   * lower-cased title; the empty term occurs at position 0 of every title.
   */
  lemma SearchMatchesOccurs(term: string, title: string)
    ensures SearchMatches(term, title) <==> exists i :: OccursAt(ToLower(title), ToLower(term), i)
  {
    ContainsAt(ToLower(title), ToLower(term));
    if term == "" {
      assert OccursAt(ToLower(title), ToLower(term), 0);
    } else {
      assert SearchMatches(term, title) == Contains(ToLower(title), ToLower(term));
    }
  }

  /** The record passes both halves; with `'all'` and no term every record does. */
  predicate Matches(e: Expense, filter: string, term: string)
    ensures filter == "all" && term == "" ==> Matches(e, filter, term)
    ensures Matches(e, filter, term) ==> filter == "all" || filter == CategoryName(e.data.category)
  {
    CategoryMatches(filter, e.data.category) && SearchMatches(term, e.data.title)
  }

  /** `expenses.filter(keep)`: the records `keep` accepts, in list order. */
  function Filter(s: seq<Expense>, keep: Expense -> bool): (r: seq<Expense>)
    ensures |r| <= |s|
  {
    if s == [] then [] else (if keep(s[0]) then [s[0]] else []) + Filter(s[1..], keep)
  }

  /** The records kept are exactly those of `s` that `keep` accepts. */
  lemma {:induction false} FilterMembers(s: seq<Expense>, keep: Expense -> bool)
    ensures forall e :: e in Filter(s, keep) <==> e in s && keep(e)
  {
    if s != [] {
      FilterMembers(s[1..], keep);
      assert forall e :: e in s <==> e == s[0] || e in s[1..];
    }
  }

  /** Filtering distributes over concatenation, so the kept records stay in list order. */
  lemma {:induction false} FilterConcat(a: seq<Expense>, b: seq<Expense>, keep: Expense -> bool)
    ensures Filter(a + b, keep) == Filter(a, keep) + Filter(b, keep)
  {
    if a != [] {
      FilterConcat(a[1..], b, keep);
      assert (a + b)[1..] == a[1..] + b;
    } else {
      assert a + b == b;
    }
  }

  /** A filter that accepts every record of `s` keeps `s` as it is. */
  lemma {:induction false} FilterKeepsAll(s: seq<Expense>, keep: Expense -> bool)
    requires forall i :: 0 <= i < |s| ==> keep(s[i])
    ensures Filter(s, keep) == s
  {
    if s != [] {
      FilterKeepsAll(s[1..], keep);
    }
  }

  /** The callback `filteredExpenses` hands to `filter`. */
  function Matcher(filter: string, term: string): Expense -> bool {
    e => Matches(e, filter, term)
  }

  /** The records of `s` that pass the category filter and the title search, in list order. */
  function FilterBy(s: seq<Expense>, filter: string, term: string): (r: seq<Expense>)
    ensures |r| <= |s|
  {
    Filter(s, Matcher(filter, term))
  }

  /** A record is kept exactly when it is in the list and passes both conditions. */
  lemma FilterByMembers(s: seq<Expense>, filter: string, term: string)
    ensures forall e :: e in FilterBy(s, filter, term) <==> e in s && Matches(e, filter, term)
  {
    FilterMembers(s, Matcher(filter, term));
  }

  /** Filtering by the category and the term distributes over concatenation. */
  lemma FilterByConcat(a: seq<Expense>, b: seq<Expense>, filter: string, term: string)
    ensures FilterBy(a + b, filter, term) == FilterBy(a, filter, term) + FilterBy(b, filter, term)
  {
    FilterConcat(a, b, Matcher(filter, term));
  }

  /** With the `'all'` filter and no search term, every record passes, in list order. */
  lemma FilterAllKeepsEverything(s: seq<Expense>)
    ensures FilterBy(s, "all", "") == s
  {
    FilterKeepsAll(s, Matcher("all", ""));
  }

  /** Newest first: no record is dated before a record after it. */
  predicate NewestFirst(s: seq<Expense>) {
    forall i, j :: 0 <= i < j < |s| ==> DateLe(s[j].data.date, s[i].data.date)
  }

  /** No record of `s` is dated after `d`. */
  predicate NoneNewerThan(s: seq<Expense>, d: Date) {
    forall k :: 0 <= k < |s| ==> DateLe(s[k].data.date, d)
  }

  lemma NewestFirstCons(h: Expense, r: seq<Expense>)
    ensures NewestFirst([h] + r) <==> NoneNewerThan(r, h.data.date) && NewestFirst(r)
  {
    var s := [h] + r;
    if NoneNewerThan(r, h.data.date) && NewestFirst(r) {
      forall i, j | 0 <= i < j < |s| ensures DateLe(s[j].data.date, s[i].data.date) {
        assert s[j] == r[j - 1];
        if i == 0 {
          assert s[i] == h && DateLe(r[j - 1].data.date, h.data.date);
        } else {
          assert s[i] == r[i - 1] && DateLe(r[j - 1].data.date, r[i - 1].data.date);
        }
      }
    }
    if NewestFirst(s) {
      forall k | 0 <= k < |r| ensures DateLe(r[k].data.date, h.data.date) {
        assert s[k + 1] == r[k] && s[0] == h;
        assert DateLe(s[k + 1].data.date, s[0].data.date);
      }
      forall i, j | 0 <= i < j < |r| ensures DateLe(r[j].data.date, r[i].data.date) {
        assert s[i + 1] == r[i] && s[j + 1] == r[j];
      }
    }
  }

  /**
   * One step of a stable sort by date, newest first: `x`, which preceded every
   * record of `t` in the list, goes in front of the first record not newer than it.
   */
  function InsertByDate(x: Expense, t: seq<Expense>): (r: seq<Expense>)
    ensures multiset(r) == multiset(t) + multiset{x}
  {
    if t == [] || DateLe(t[0].data.date, x.data.date) then [x] + t
    else
      assert t == [t[0]] + t[1..];
      [t[0]] + InsertByDate(x, t[1..])
  }

  lemma {:induction false} InsertNoneNewer(x: Expense, t: seq<Expense>, d: Date)
    requires NoneNewerThan(t, d) && DateLe(x.data.date, d)
    ensures NoneNewerThan(InsertByDate(x, t), d)
  {
    if !(t == [] || DateLe(t[0].data.date, x.data.date)) {
      InsertNoneNewer(x, t[1..], d);
    }
  }

  /** Inserting into a list sorted newest first keeps it sorted. */
  lemma {:induction false} InsertKeepsNewestFirst(x: Expense, t: seq<Expense>)
    requires NewestFirst(t)
    ensures NewestFirst(InsertByDate(x, t))
  {
    if t != [] {
      assert t == [t[0]] + t[1..];
      NewestFirstCons(t[0], t[1..]);
    }
    if t == [] || DateLe(t[0].data.date, x.data.date) {
      forall k | 0 <= k < |t| ensures DateLe(t[k].data.date, x.data.date) {
        DateLeTotalOrder(t[k].data.date, t[0].data.date, x.data.date);
      }
      NewestFirstCons(x, t);
    } else {
      InsertKeepsNewestFirst(x, t[1..]);
      DateLeTotalOrder(x.data.date, t[0].data.date, t[0].data.date);
      InsertNoneNewer(x, t[1..], t[0].data.date);
      NewestFirstCons(t[0], InsertByDate(x, t[1..]));
    }
  }

  /** The stable sort by date, newest first, as an insertion sort. */
  function SortNewestFirst(s: seq<Expense>): (r: seq<Expense>)
    ensures multiset(r) == multiset(s)
    ensures NewestFirst(r)
  {
    if s == [] then []
    else
      assert s == [s[0]] + s[1..];
      var t := SortNewestFirst(s[1..]);
      InsertKeepsNewestFirst(s[0], t);
      InsertByDate(s[0], t)
  }

  /** The records dated `d`, in list order. */
  function OnDate(s: seq<Expense>, d: Date): seq<Expense> {
    if s == [] then [] else (if s[0].data.date == d then [s[0]] else []) + OnDate(s[1..], d)
  }

  /** Inserting `x` puts it in front of every record of its own date. */
  lemma {:induction false} InsertOnDate(x: Expense, t: seq<Expense>, d: Date)
    ensures OnDate(InsertByDate(x, t), d) == (if x.data.date == d then [x] else []) + OnDate(t, d)
  {
    if t == [] || DateLe(t[0].data.date, x.data.date) {
      assert ([x] + t)[1..] == t;
    } else {
      InsertOnDate(x, t[1..], d);
      var rest := InsertByDate(x, t[1..]);
      assert ([t[0]] + rest)[1..] == rest;
      assert t[0].data.date != x.data.date;
    }
  }

  /** The sort is stable: the records of any one date keep their list order. */
  lemma {:induction false} SortIsStable(s: seq<Expense>, d: Date)
    ensures OnDate(SortNewestFirst(s), d) == OnDate(s, d)
  {
    if s != [] {
      SortIsStable(s[1..], d);
      InsertOnDate(s[0], SortNewestFirst(s[1..]), d);
    }
  }

  /**
   * `filteredExpenses`: exactly the records of `s` that match, as many times
   * as they occur in the filtered list, newest first.
   */
  function FilteredExpenses(s: seq<Expense>, filter: string, term: string): (r: seq<Expense>)
    ensures forall e :: e in r <==> e in s && Matches(e, filter, term)
    ensures multiset(r) == multiset(FilterBy(s, filter, term))
    ensures NewestFirst(r)
  {
    var f := FilterBy(s, filter, term);
    FilterByMembers(s, filter, term);
    var r := SortNewestFirst(f);
    assert forall e :: e in r <==> e in f by {
      forall e ensures e in r <==> e in f {
        assert e in r <==> e in multiset(r);
        assert e in f <==> e in multiset(f);
      }
    }
    r
  }

  /** Records of equal date appear in the shown list in the order the store holds them. */
  lemma FilteredExpensesStable(s: seq<Expense>, filter: string, term: string, d: Date)
    ensures OnDate(FilteredExpenses(s, filter, term), d) == OnDate(FilterBy(s, filter, term), d)
  {
    SortIsStable(FilterBy(s, filter, term), d);
  }

  /** The example of a two-record store filtered to the food category. */
  lemma FoodFilterExample()
    ensures
      var food := Expense(1, ExpenseData("Lunch", 100.0, Date(2024, 5, 1), Food, None, None, false, None, None, None));
      var trip := Expense(2, ExpenseData("Cab", 50.0, Date(2024, 5, 2), Travel, None, None, false, None, None, None));
      FilteredExpenses([food, trip], "food", "") == [food]
  {
    var food := Expense(1, ExpenseData("Lunch", 100.0, Date(2024, 5, 1), Food, None, None, false, None, None, None));
    var trip := Expense(2, ExpenseData("Cab", 50.0, Date(2024, 5, 2), Travel, None, None, false, None, None, None));
    var keep := Matcher("food", "");
    assert keep(food) && !keep(trip);
    assert Filter([trip], keep) == [] by {
      assert [trip][1..] == [];
    }
    assert FilterBy([food, trip], "food", "") == [food] by {
      assert [food, trip][1..] == [trip];
    }
    assert SortNewestFirst([food]) == [food] by {
      assert [food][1..] == [];
    }
  }
}
