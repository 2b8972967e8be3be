/**
 * The add dialog (`AddExpenseModal`): its form state, the save that runs the
 * checks and hands a new record to the store, and the receipt handlers.
 */
module AddExpenseModal {
  import opened Wrappers
  import opened Model
  import opened ExpenseForm
  import ExpenseList
  import AppContext

  /** The message shown when `addExpense` throws. */
  const AddFailedMessage: string := "Failed to add expense. Please try again."

  class AddExpenseForm {
    var title: string
    var amount: Option<real>
    var date: Option<Date>
    var category: Option<Category>
    var activity: Option<Activity>
    var remarks: string
    var customTag: string
    var receiptUri: Option<string>
    var receiptFilename: Option<string>
    var errorMessage: string

    /** What `handleSave` reads from the form. */
    function Fields(): FormFields
      reads this`title, this`amount, this`date, this`category, this`activity
      reads this`remarks, this`customTag, this`receiptUri, this`receiptFilename
    {
      FormFields(title, amount, date, category, activity, remarks, customTag, receiptUri, receiptFilename)
    }

    /** The empty form: every field blank, the date set to `today`, no receipt, no message. */
    predicate IsBlank(today: Date)
      reads this
    {
      && title == "" && amount == None && date == Some(today)
      && category == None && activity == None && remarks == "" && customTag == ""
      && receiptUri == None && receiptFilename == None && errorMessage == ""
    }

    /** The dialog mounts with a blank form dated `today` (the device's UTC date). */
    constructor (today: Date)
      ensures IsBlank(today)
    {
      title, amount, date := "", None, Some(today);
      category, activity := None, None;
      remarks, customTag := "", "";
      receiptUri, receiptFilename := None, None;
      errorMessage := "";
    }

    /** `resetForm`, which `handleClose` also runs before closing the dialog. */
    method ResetForm(today: Date)
      modifies this
      ensures IsBlank(today)
    {
      title, amount, date := "", None, Some(today);
      category, activity := None, None;
      remarks, customTag := "", "";
      receiptUri, receiptFilename := None, None;
      errorMessage := "";
    }

    /**
     * `handleSave`. The first failing check sets its message and leaves the
     * store alone; otherwise the form is submitted (see `Submit`).
     */
    method HandleSave(store: AppContext.Store, writeOk: bool, today: Date)
      modifies this, store`expenses, store`storedExpenses
      ensures FirstFailure(old(Fields())).Some? ==>
        errorMessage == Message(FirstFailure(old(Fields())).value) && Fields() == old(Fields()) &&
        store.expenses == old(store.expenses) && store.storedExpenses == old(store.storedExpenses)
      ensures FirstFailure(old(Fields())).None? ==>
        && store.expenses == old(store.expenses) + [Expense(ExpenseList.NextId(old(store.expenses)), NewExpenseData(old(Fields())))]
        && store.storedExpenses == (if writeOk then AppContext.Present(store.expenses) else old(store.storedExpenses))
        && (writeOk ==> IsBlank(today))
        && (!writeOk ==> errorMessage == AddFailedMessage && Fields() == old(Fields()))
    {
      var f := Fields();
      var failure := FirstFailure(f);
      if failure.Some? {
        errorMessage := Message(failure.value);
      } else {
        Submit(store, NewExpenseData(f), writeOk, today);
      }
    }

    /**
     * The part of `handleSave` after the checks pass: the built record `d` is
     * appended under the next id; the form is blanked when the write succeeds,
     * and keeps its fields with the failure message when it throws (the
     * in-memory add stays).
     */
    method Submit(store: AppContext.Store, d: ExpenseData, writeOk: bool, today: Date)
      modifies this, store`expenses, store`storedExpenses
      ensures store.expenses == old(store.expenses) + [Expense(ExpenseList.NextId(old(store.expenses)), d)]
      ensures store.storedExpenses == (if writeOk then AppContext.Present(store.expenses) else old(store.storedExpenses))
      ensures writeOk ==> IsBlank(today)
      ensures !writeOk ==> errorMessage == AddFailedMessage && Fields() == old(Fields())
    {
      var c := store.AddExpense(d, writeOk);
      if c == AppContext.Completed {
        ResetForm(today);
      } else {
        errorMessage := AddFailedMessage;
      }
    }

    /** `handleRemoveReceipt`: drop the attached receipt. */
    method HandleRemoveReceipt()
      modifies this`receiptUri, this`receiptFilename
      ensures receiptUri == None && receiptFilename == None
    {
      receiptUri, receiptFilename := None, None;
    }

    /** A photo taken with the camera: its uri, and its file name or `receipt.jpg`. */
    method HandlePhotoTaken(uri: string, fileName: Option<string>)
      modifies this`receiptUri, this`receiptFilename
      ensures receiptUri == Some(uri)
      ensures receiptFilename == Some(if Truthy(fileName) then fileName.value else DefaultPhotoName)
    {
      receiptUri := Some(uri);
      receiptFilename := Some(if Truthy(fileName) then fileName.value else DefaultPhotoName);
    }

    /** A document chosen with the file picker: its uri and name. */
    method HandleFileChosen(uri: string, name: string)
      modifies this`receiptUri, this`receiptFilename
      ensures receiptUri == Some(uri) && receiptFilename == Some(name)
    {
      receiptUri, receiptFilename := Some(uri), Some(name);
    }
  }

  /**
   * Saving a filled-in form into a store of distinct ids adds exactly one
   * record, normalized, under an id no other record has.
   */
  method SaveAddsOneRecord(store: AppContext.Store, form: AddExpenseForm, today: Date)
    requires FirstFailure(form.Fields()) == None && ExpenseList.UniqueIds(store.expenses)
    modifies store`expenses, store`storedExpenses, form
    ensures |store.expenses| == |old(store.expenses)| + 1
    ensures ExpenseList.UniqueIds(store.expenses)
    ensures IsNormalized(store.expenses[|store.expenses| - 1].data)
    ensures form.IsBlank(today)
  {
    ExpenseList.AddKeepsIdsUnique(store.expenses, NewExpenseData(form.Fields()));
    form.HandleSave(store, true, today);
  }
}
