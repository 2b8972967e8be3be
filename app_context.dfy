/**
 * The app-wide store (`AppProvider`): the expense list and the profile held
 * in memory, the filter state, and the device storage they are written to.
 * Every mutator sets the in-memory state first and then writes storage; a
 * failed write is reported to the caller and the in-memory change stays.
 */
module AppContext {
  import opened Model
  import opened ExpenseList
  import Query

  /** What a storage key holds: nothing, a value that loads, or something whose read or parse throws. */
  datatype Stored<T> = Missing | Present(value: T) | Unreadable

  /** How an awaited store operation ends: it completes, or the storage write throws and the error is rethrown. */
  datatype Completion = Completed | StorageError

  class Store {
    var expenses: seq<Expense>
    var userProfile: UserProfile
    var currentFilterCategory: string
    var searchTerm: string
    /** The device's key-value storage: the `expenses_data` key. */
    var storedExpenses: Stored<seq<Expense>>
    /** The device's key-value storage: the `user_profile` key. */
    var storedProfile: Stored<UserProfile>

    /** The provider mounts with no expenses, the default profile, the `'all'` filter and no search term. */
    constructor (storedExpenses: Stored<seq<Expense>>, storedProfile: Stored<UserProfile>)
      ensures expenses == [] && userProfile == DefaultProfile()
      ensures currentFilterCategory == "all" && searchTerm == ""
      ensures this.storedExpenses == storedExpenses && this.storedProfile == storedProfile
    {
      expenses := [];
      userProfile := DefaultProfile();
      currentFilterCategory := "all";
      searchTerm := "";
      this.storedExpenses := storedExpenses;
      this.storedProfile := storedProfile;
    }

    /**
     * `loadData`: take the stored list, or seed the sample list and write it;
     * then take the stored profile, or write the default one. A read, parse or
     * write that throws ends the load at that point, silently.
     */
    method LoadData(expensesWriteOk: bool, profileWriteOk: bool)
      modifies this
      ensures currentFilterCategory == old(currentFilterCategory) && searchTerm == old(searchTerm)
      ensures match old(storedExpenses)
        case Present(s) => expenses == s && storedExpenses == old(storedExpenses)
        case Missing =>
          expenses == SampleExpenses() &&
          storedExpenses == if expensesWriteOk then Present(SampleExpenses()) else Missing
        case Unreadable => expenses == old(expenses) && storedExpenses == Unreadable
      ensures
        var reachedProfile := old(storedExpenses).Present? || (old(storedExpenses).Missing? && expensesWriteOk);
        if reachedProfile && old(storedProfile).Present? then
          userProfile == old(storedProfile).value && storedProfile == old(storedProfile)
        else if reachedProfile && old(storedProfile).Missing? && profileWriteOk then
          userProfile == old(userProfile) && storedProfile == Present(DefaultProfile())
        else
          userProfile == old(userProfile) && storedProfile == old(storedProfile)
    {
      match storedExpenses {
        case Unreadable =>
          return;
        case Present(s) =>
          expenses := s;
        case Missing =>
          expenses := SampleExpenses();
          if !expensesWriteOk {
            return;
          }
          storedExpenses := Present(SampleExpenses());
      }
      match storedProfile {
        case Unreadable =>
          return;
        case Present(p) =>
          userProfile := p;
        case Missing =>
          if profileWriteOk {
            storedProfile := Present(DefaultProfile());
          }
      }
    }

    /**
     * `addExpense`: append the record under the next id, then write the list.
     * The new id exceeds every id already held, so distinct ids stay distinct.
     */
    method AddExpense(data: ExpenseData, writeOk: bool) returns (c: Completion)
      modifies this`expenses, this`storedExpenses
      ensures expenses == old(expenses) + [Expense(NextId(old(expenses)), data)]
      ensures forall e :: e in old(expenses) ==> e.id < expenses[|expenses| - 1].id
      ensures UniqueIds(old(expenses)) ==> UniqueIds(expenses)
      ensures c == (if writeOk then Completed else StorageError)
      ensures storedExpenses == if writeOk then Present(expenses) else old(storedExpenses)
    {
      var newId := if |expenses| > 0 then MaxId(expenses) + 1 else 1;
      var updated := expenses + [Expense(newId, data)];
      if UniqueIds(expenses) {
        AddKeepsIdsUnique(expenses, data);
      }
      expenses := updated;
      if writeOk {
        storedExpenses := Present(updated);
        c := Completed;
      } else {
        c := StorageError;
      }
    }

    /** `updateExpense`: replace every record with the id of `u` by `u`, then write the list. */
    method UpdateExpense(u: Expense, writeOk: bool) returns (c: Completion)
      modifies this`expenses, this`storedExpenses
      ensures expenses == ExpenseList.Replaced(old(expenses), u)
      ensures UniqueIds(old(expenses)) ==> UniqueIds(expenses)
      ensures c == (if writeOk then Completed else StorageError)
      ensures storedExpenses == if writeOk then Present(expenses) else old(storedExpenses)
    {
      var updated := Replaced(expenses, u);
      ReplacedKeepsIds(expenses, u);
      expenses := updated;
      if writeOk {
        storedExpenses := Present(updated);
        c := Completed;
      } else {
        c := StorageError;
      }
    }

    /** `deleteExpense`: keep the records whose id differs from `id`, then write the list. */
    method DeleteExpense(id: int, writeOk: bool) returns (c: Completion)
      modifies this`expenses, this`storedExpenses
      ensures expenses == Removed(old(expenses), id)
      ensures UniqueIds(old(expenses)) ==> UniqueIds(expenses)
      ensures c == (if writeOk then Completed else StorageError)
      ensures storedExpenses == if writeOk then Present(expenses) else old(storedExpenses)
    {
      var updated := Removed(expenses, id);
      if UniqueIds(expenses) {
        RemovedKeepsIdsUnique(expenses, id);
      }
      expenses := updated;
      if writeOk {
        storedExpenses := Present(updated);
        c := Completed;
      } else {
        c := StorageError;
      }
    }

    /** `updateUserProfile`: replace the profile wholesale, then write it. */
    method UpdateUserProfile(p: UserProfile, writeOk: bool) returns (c: Completion)
      modifies this`userProfile, this`storedProfile
      ensures userProfile == p
      ensures c == (if writeOk then Completed else StorageError)
      ensures storedProfile == if writeOk then Present(p) else old(storedProfile)
    {
      userProfile := p;
      if writeOk {
        storedProfile := Present(p);
        c := Completed;
      } else {
        c := StorageError;
      }
    }

    /** `setFilterCategory`. */
    method SetFilterCategory(category: string)
      modifies this`currentFilterCategory
      ensures currentFilterCategory == category
    {
      currentFilterCategory := category;
    }

    /** `setSearchTerm`. */
    method SetSearchTerm(term: string)
      modifies this`searchTerm
      ensures searchTerm == term
    {
      searchTerm := term;
    }

    /**
     * The memoised `filteredExpenses`, recomputed from the current state: the
     * stored records that pass the current filter and search, newest first;
     * `expenses` is left as it is.
     */
    function FilteredExpenses(): (r: seq<Expense>)
      reads this
      ensures forall e :: e in r <==> e in expenses && Query.Matches(e, currentFilterCategory, searchTerm)
      ensures Query.NewestFirst(r)
    {
      Query.FilteredExpenses(expenses, currentFilterCategory, searchTerm)
    }
  }

  /** A first run with working storage starts from the six sample records, whose ids are distinct. */
  method FirstRun() returns (store: Store)
    ensures store.expenses == SampleExpenses() && UniqueIds(store.expenses)
    ensures store.storedExpenses == Present(SampleExpenses())
    ensures store.userProfile == DefaultProfile() && store.storedProfile == Present(DefaultProfile())
  {
    store := new Store(Missing, Missing);
    store.LoadData(true, true);
  }
}
