/**
 * The edit dialog (`EditExpenseModal`): the form loaded from the record it
 * edits, the save that merges the form into that record, and the receipt
 * handlers with their `removeReceipt` flag.
 */
module EditExpenseModal {
  import opened Wrappers
  import opened Strings
  import opened Model
  import opened ExpenseForm
  import ExpenseList
  import AppContext

  /** The message shown when `updateExpense` throws. */
  const UpdateFailedMessage: string := "Failed to update expense. Please try again."

  /** `s || ''` for a `string | null`. */
  function OrEmpty(s: Option<string>): (r: string)
    ensures Truthy(s) ==> r == s.value
    ensures !Truthy(s) ==> r == ""
  {
    if Truthy(s) then s.value else ""
  }

  /** `s || null` for a `string | null`: the empty string becomes `null`. */
  function OrNull(s: Option<string>): (r: Option<string>)
    ensures Truthy(r) <==> Truthy(s)
    ensures Truthy(s) ==> r == s
    ensures !Truthy(s) ==> r == None
  {
    if Truthy(s) then s else None
  }

  /**
   * What the effect on `expense` (and `resetForm`) puts in the form. The amount
   * text `amount.toString()` parses back to the amount itself. The form loaded
   * from a record a form produced passes every check.
   */
  function LoadedFields(d: ExpenseData): (f: FormFields)
    ensures IsNormalized(d) ==> Passes(f)
  {
    var f := FormFields(d.title, Some(d.amount), Some(d.date), Some(d.category), d.activity,
                        OrEmpty(d.remarks), OrEmpty(d.customTag), OrNull(d.receiptUri), OrNull(d.receiptFilename));
    assert IsNormalized(d) ==> Passes(f) by {
      if IsNormalized(d) {
        TrimFixedIff(d.title);
        CustomTagRoundTrip(d.category, d.customTag);
      }
    }
    f
  }

  /**
   * The `hasReceipt` a save writes. The second disjunct's `!receiptUri` is
   * redundant: the flag is set unless the receipt was removed, and then
   * exactly when a uri is attached or the record already had a receipt.
   */
  function MergedHasReceipt(removeReceipt: bool, receiptUri: Option<string>, original: ExpenseData): (r: bool)
    ensures r <==> !removeReceipt && (Truthy(receiptUri) || original.hasReceipt)
  {
    !removeReceipt && (Truthy(receiptUri) || (original.hasReceipt && !Truthy(receiptUri)))
  }

  /** The receipt uri or file name a save writes: none once removed, else the form's, else the record's. */
  function MergedReference(removeReceipt: bool, fromForm: Option<string>, fromRecord: Option<string>): (r: Option<string>)
    ensures removeReceipt ==> r == None
    ensures !removeReceipt ==> r == (if Truthy(fromForm) then fromForm else fromRecord)
  {
    if removeReceipt then None else if Truthy(fromForm) then fromForm else fromRecord
  }

  /**
   * The record `handleSave` passes to `updateExpense`: the original record
   * (its id in particular) overwritten with the checked form fields, and the
   * receipt merged from the form, the original and the `removeReceipt` flag.
   */
  function EditedExpense(original: Expense, f: FormFields, removeReceipt: bool): (r: Expense)
    requires FirstFailure(f) == None
    ensures r.id == original.id
    ensures r.data.title == Trim(f.title)
    ensures Some(r.data.amount) == f.amount && Some(r.data.date) == f.date
    ensures Some(r.data.category) == f.category && r.data.activity == f.activity
    ensures r.data.remarks == SavedRemarks(f.remarks) && r.data.customTag == SavedCustomTag(r.data.category, f.customTag)
    ensures removeReceipt ==> !r.data.hasReceipt && r.data.receiptUri == None && r.data.receiptFilename == None
    ensures !removeReceipt ==> (r.data.hasReceipt <==> Truthy(f.receiptUri) || original.data.hasReceipt)
    ensures !removeReceipt ==>
      && r.data.receiptUri == (if Truthy(f.receiptUri) then f.receiptUri else original.data.receiptUri)
      && r.data.receiptFilename == (if Truthy(f.receiptFilename) then f.receiptFilename else original.data.receiptFilename)
    ensures IsNormalized(original.data) ==> IsNormalized(r.data)
  {
    var d := ExpenseData(
      Trim(f.title), f.amount.value, f.date.value, f.category.value, f.activity,
      SavedRemarks(f.remarks),
      MergedHasReceipt(removeReceipt, f.receiptUri, original.data),
      MergedReference(removeReceipt, f.receiptFilename, original.data.receiptFilename),
      MergedReference(removeReceipt, f.receiptUri, original.data.receiptUri),
      SavedCustomTag(f.category.value, f.customTag));
    assert IsNormalized(original.data) ==> IsNormalized(d) by {
      if IsNormalized(original.data) {
        SavedFieldsNormalized(f, d);
      }
    }
    Expense(original.id, d)
  }

  /** Remarks as a form saves them survive `|| ''` followed by `trim() || null`. */
  lemma RemarksRoundTrip(remarks: Option<string>)
    requires remarks.Some? ==> remarks.value != "" && IsTrimmed(remarks.value)
    ensures SavedRemarks(OrEmpty(remarks)) == remarks
  {
    if remarks.Some? {
      TrimFixedIff(remarks.value);
    } else {
      TrimFixedIff("");
    }
  }

  /** A tag as a form saves it survives `|| ''` followed by the save's `trim()`. */
  lemma CustomTagRoundTrip(category: Category, customTag: Option<string>)
    requires customTag.Some? <==> category == Other
    requires customTag.Some? ==> customTag.value != "" && IsTrimmed(customTag.value)
    ensures SavedCustomTag(category, OrEmpty(customTag)) == customTag
    ensures category == Other ==> Trim(OrEmpty(customTag)) != ""
  {
    if customTag.Some? {
      TrimFixedIff(customTag.value);
    }
  }

  /** A receipt reference survives `|| null` followed by the save's merge. */
  lemma ReferenceRoundTrip(reference: Option<string>)
    ensures MergedReference(false, OrNull(reference), reference) == reference
  {
  }

  /**
   * Opening a record the forms produced and saving it without changes writes
   * back the very same record: the form passes every check, and trimming,
   * `|| ''`, `|| null` and the receipt merge undo one another.
   */
  lemma LoadThenSaveIsIdentity(e: Expense)
    requires IsNormalized(e.data)
    ensures FirstFailure(LoadedFields(e.data)) == None
    ensures EditedExpense(e, LoadedFields(e.data), false) == e
  {
    var d := e.data;
    var f := LoadedFields(d);
    TrimFixedIff(d.title);
    RemarksRoundTrip(d.remarks);
    CustomTagRoundTrip(d.category, d.customTag);
    ReferenceRoundTrip(d.receiptUri);
    ReferenceRoundTrip(d.receiptFilename);
    var r := EditedExpense(e, f, false);
    assert r.data == d;
  }

  class EditExpenseForm {
    /** The `expense` prop: the record being edited, if any. */
    var expense: Option<Expense>
    var title: string
    var amount: Option<real>
    var date: Option<Date>
    var category: Option<Category>
    var activity: Option<Activity>
    var remarks: string
    var customTag: string
    var receiptUri: Option<string>
    var receiptFilename: Option<string>
    var errorMessage: string
    var removeReceipt: bool

    /** What `handleSave` reads from the form. */
    function Fields(): FormFields
      reads this`title, this`amount, this`date, this`category, this`activity
      reads this`remarks, this`customTag, this`receiptUri, this`receiptFilename
    {
      FormFields(title, amount, date, category, activity, remarks, customTag, receiptUri, receiptFilename)
    }

    /** The form shows record `d` afresh: no message, no pending receipt removal. */
    predicate ShowsRecord(d: ExpenseData)
      reads this
    {
      Fields() == LoadedFields(d) && errorMessage == "" && !removeReceipt
    }

    /** The dialog mounts with empty fields (the date too) before any record is loaded. */
    constructor ()
      ensures expense == None && Fields() == FormFields("", None, None, None, None, "", "", None, None)
      ensures errorMessage == "" && !removeReceipt
    {
      expense := None;
      title, amount, date := "", None, None;
      category, activity := None, None;
      remarks, customTag := "", "";
      receiptUri, receiptFilename := None, None;
      errorMessage := "";
      removeReceipt := false;
    }

    /**
     * The setters the effect on `expense` and `resetForm` both run: the form
     * takes the fields `f` (`LoadedFields` of the record), the message and the
     * pending removal are cleared.
     */
    method Load(f: FormFields)
      modifies this`title, this`amount, this`date, this`category, this`activity, this`remarks
      modifies this`customTag, this`receiptUri, this`receiptFilename, this`errorMessage, this`removeReceipt
      ensures Fields() == f && errorMessage == "" && !removeReceipt
    {
      title := f.title;
      amount := f.amount;
      date := f.date;
      category := f.category;
      activity := f.activity;
      remarks := f.remarks;
      customTag := f.customTag;
      receiptUri := f.receiptUri;
      receiptFilename := f.receiptFilename;
      errorMessage := "";
      removeReceipt := false;
    }

    /** A new `expense` prop: the effect reloads the form when it is a record, and leaves it otherwise. */
    method SetExpense(e: Option<Expense>)
      modifies this
      ensures expense == e
      ensures e.Some? ==> ShowsRecord(e.value.data)
      ensures e.None? ==> Fields() == old(Fields()) && errorMessage == old(errorMessage) && removeReceipt == old(removeReceipt)
    {
      expense := e;
      if e.Some? {
        Load(LoadedFields(e.value.data));
      }
    }

    /** `resetForm`, which `handleClose` also runs: reload the record, or do nothing without one. */
    method ResetForm()
      modifies this
      ensures expense == old(expense)
      ensures expense.Some? ==> ShowsRecord(expense.value.data)
      ensures expense.None? ==> unchanged(this)
    {
      if expense.Some? {
        Load(LoadedFields(expense.value.data));
      }
    }

    /**
     * `handleSave`: without a record nothing happens. The first failing check
     * sets its message and leaves the store alone; otherwise the merged record
     * is written over the one with its id (see `Submit`). The form is not reset.
     */
    method HandleSave(store: AppContext.Store, writeOk: bool)
      modifies this`errorMessage, store`expenses, store`storedExpenses
      ensures old(expense).None? ==>
        errorMessage == old(errorMessage) && store.expenses == old(store.expenses) && store.storedExpenses == old(store.storedExpenses)
      ensures old(expense).Some? && FirstFailure(old(Fields())).Some? ==>
        errorMessage == Message(FirstFailure(old(Fields())).value) &&
        store.expenses == old(store.expenses) && store.storedExpenses == old(store.storedExpenses)
      ensures old(expense).Some? && FirstFailure(old(Fields())).None? ==>
        store.expenses == ExpenseList.Replaced(old(store.expenses), EditedExpense(old(expense).value, old(Fields()), old(removeReceipt)))
      ensures old(expense).Some? && FirstFailure(old(Fields())).None? ==>
        store.storedExpenses == (if writeOk then AppContext.Present(store.expenses) else old(store.storedExpenses))
      ensures old(expense).Some? && FirstFailure(old(Fields())).None? ==>
        errorMessage == (if writeOk then old(errorMessage) else UpdateFailedMessage)
    {
      if expense.None? {
        return;
      }
      var f := Fields();
      var failure := FirstFailure(f);
      if failure.Some? {
        errorMessage := Message(failure.value);
      } else {
        Submit(store, EditedExpense(expense.value, f, removeReceipt), writeOk);
      }
    }

    /**
     * The part of `handleSave` after the checks pass: `u` replaces the record
     * with its id; a throwing write leaves the failure message (the in-memory
     * update stays).
     */
    method Submit(store: AppContext.Store, u: Expense, writeOk: bool)
      modifies this`errorMessage, store`expenses, store`storedExpenses
      ensures store.expenses == ExpenseList.Replaced(old(store.expenses), u)
      ensures store.storedExpenses == (if writeOk then AppContext.Present(store.expenses) else old(store.storedExpenses))
      ensures errorMessage == (if writeOk then old(errorMessage) else UpdateFailedMessage)
    {
      var c := store.UpdateExpense(u, writeOk);
      if c == AppContext.StorageError {
        errorMessage := UpdateFailedMessage;
      }
    }

    /** `handleRemoveReceipt`: drop the attached receipt and remember to drop the record's too. */
    method HandleRemoveReceipt()
      modifies this`receiptUri, this`receiptFilename, this`removeReceipt
      ensures receiptUri == None && receiptFilename == None && removeReceipt
    {
      receiptUri, receiptFilename := None, None;
      removeReceipt := true;
    }

    /** A photo taken with the camera: its uri, its file name or `receipt.jpg`, and no pending removal. */
    method HandlePhotoTaken(uri: string, fileName: Option<string>)
      modifies this`receiptUri, this`receiptFilename, this`removeReceipt
      ensures receiptUri == Some(uri) && !removeReceipt
      ensures receiptFilename == Some(if Truthy(fileName) then fileName.value else DefaultPhotoName)
    {
      receiptUri := Some(uri);
      receiptFilename := Some(if Truthy(fileName) then fileName.value else DefaultPhotoName);
      removeReceipt := false;
    }

    /** A document chosen with the file picker: its uri and name, and no pending removal. */
    method HandleFileChosen(uri: string, name: string)
      modifies this`receiptUri, this`receiptFilename, this`removeReceipt
      ensures receiptUri == Some(uri) && receiptFilename == Some(name) && !removeReceipt
    {
      receiptUri, receiptFilename := Some(uri), Some(name);
      removeReceipt := false;
    }
  }

  /** Writing back the unchanged form of a held record leaves the list as it was. */
  lemma SaveOfLoadedKeepsList(s: seq<Expense>, e: Expense, f: FormFields)
    requires e in s && ExpenseList.UniqueIds(s) && IsNormalized(e.data) && f == LoadedFields(e.data)
    ensures FirstFailure(f) == None && ExpenseList.Replaced(s, EditedExpense(e, f, false)) == s
  {
    LoadThenSaveIsIdentity(e);
    ExpenseList.ReplacedWithHeld(s, e);
  }

  /**
   * Saving a form that shows a stored record unchanged leaves the store's list
   * as it was, for every record a form could have produced.
   */
  method SaveUnchangedKeepsList(store: AppContext.Store, form: EditExpenseForm, e: Expense)
    requires form.expense == Some(e) && form.ShowsRecord(e.data)
    requires e in store.expenses && ExpenseList.UniqueIds(store.expenses) && IsNormalized(e.data)
    modifies form`errorMessage, store`expenses, store`storedExpenses
    ensures store.expenses == old(store.expenses)
    ensures store.storedExpenses == AppContext.Present(store.expenses)
  {
    SaveOfLoadedKeepsList(store.expenses, e, form.Fields());
    form.HandleSave(store, true);
  }

  /** Opening a stored record in the edit dialog and saving at once leaves the store's list as it was. */
  method OpenAndSaveUnchanged(store: AppContext.Store, form: EditExpenseForm, e: Expense)
    requires e in store.expenses && ExpenseList.UniqueIds(store.expenses) && IsNormalized(e.data)
    modifies store`expenses, store`storedExpenses, form
    ensures store.expenses == old(store.expenses)
    ensures store.storedExpenses == AppContext.Present(store.expenses)
  {
    form.SetExpense(Some(e));
    SaveUnchangedKeepsList(store, form, e);
  }
}
