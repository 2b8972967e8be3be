/**
 * What the add and edit dialogs share: the form fields `handleSave` reads,
 * its chain of six checks that stops at the first failure, and the way a
 * saved record is built from the fields.
 */
module ExpenseForm {
  import opened Wrappers
  import opened Strings
  import opened Model

  /**
   * The fields `handleSave` reads. `amount` is what `parseFloat` makes of the
   * amount text (`None` for `NaN`); `date` is `None` for the empty string.
   */
  datatype FormFields = FormFields(
    title: string,
    amount: Option<real>,
    date: Option<Date>,
    category: Option<Category>,
    activity: Option<Activity>,
    remarks: string,
    customTag: string,
    receiptUri: Option<string>,
    receiptFilename: Option<string>)

  /** The six checks of `handleSave`, named by what each one finds missing. */
  datatype ValidationError =
    | MissingTitle
    | InvalidAmount
    | MissingDate
    | MissingCategory
    | MissingActivity
    | MissingCustomTag

  /** The place of each check in the chain. */
  function Rank(e: ValidationError): nat {
    match e
    case MissingTitle => 0
    case InvalidAmount => 1
    case MissingDate => 2
    case MissingCategory => 3
    case MissingActivity => 4
    case MissingCustomTag => 5
  }

  /**
   * The message a failing check leaves in `errorMessage`. It is never empty,
   * so the dialog, which shows the message box only for a non-empty message,
   * always shows it.
   */
  function Message(e: ValidationError): (r: string)
    ensures r != ""
  {
    match e
    case MissingTitle => "Please enter a title."
    case InvalidAmount => "Please enter a valid positive amount."
    case MissingDate => "Please select a date."
    case MissingCategory => "Please select a category."
    case MissingActivity => "Please select an activity."
    case MissingCustomTag => "Please enter a custom tag for the \"Other\" category."
  }

  /** Each check has its own message, so the message tells which check failed. */
  lemma MessagesDistinct(e: ValidationError, d: ValidationError)
    ensures Message(e) == Message(d) ==> e == d
  {
  }

  /** Whether one check, taken on its own, rejects the fields. */
  predicate Fails(f: FormFields, e: ValidationError) {
    match e
    case MissingTitle => Trim(f.title) == ""
    case InvalidAmount => f.amount.None? || f.amount.value <= 0.0
    case MissingDate => f.date.None?
    case MissingCategory => f.category.None?
    case MissingActivity => f.activity.None?
    case MissingCustomTag => f.category == Some(Other) && Trim(f.customTag) == ""
  }

  /** Each check, in the order `handleSave` runs them, passes. */
  predicate Passes(f: FormFields) {
    && Trim(f.title) != "" && f.amount.Some? && f.amount.value > 0.0
    && f.date.Some? && f.category.Some? && f.activity.Some?
    && (f.category == Some(Other) ==> Trim(f.customTag) != "")
  }

  /** When each check passes in turn, no check fails. */
  lemma NoCheckFails(f: FormFields)
    requires Passes(f)
    ensures forall e :: !Fails(f, e)
  {
    forall e ensures !Fails(f, e) {
      if e.MissingTitle? || e.InvalidAmount? || e.MissingDate? {
      } else if e.MissingCategory? || e.MissingActivity? || e.MissingCustomTag? {
      }
    }
  }

  /**
   * `handleSave`'s checks run in order with an early return: the result is the
   * first check that fails, or `None` when every check passes.
   */
  function FirstFailure(f: FormFields): (r: Option<ValidationError>)
    ensures r == None <==> Passes(f)
  {
    if Trim(f.title) == "" then Some(MissingTitle)
    else if f.amount.None? || f.amount.value <= 0.0 then Some(InvalidAmount)
    else if f.date.None? then Some(MissingDate)
    else if f.category.None? then Some(MissingCategory)
    else if f.activity.None? then Some(MissingActivity)
    else if f.category == Some(Other) && Trim(f.customTag) == "" then Some(MissingCustomTag)
    else None
  }

  /**
   * The result of `FirstFailure` is `None` exactly when no check fails, and
   * otherwise a check that fails with every earlier check passing.
   */
  lemma FirstFailureIsFirst(f: FormFields)
    ensures FirstFailure(f) == None <==> forall e :: !Fails(f, e)
    ensures FirstFailure(f).Some? ==>
      Fails(f, FirstFailure(f).value) && forall e :: Rank(e) < Rank(FirstFailure(f).value) ==> !Fails(f, e)
  {
    var r := FirstFailure(f);
    if r == None {
      NoCheckFails(f);
    } else {
      assert Fails(f, r.value);
      forall e | Rank(e) < Rank(r.value) ensures !Fails(f, e) {
        if e.MissingTitle? || e.InvalidAmount? || e.MissingDate? {
        } else if e.MissingCategory? || e.MissingActivity? || e.MissingCustomTag? {
        }
      }
    }
  }

  /** The file name a photo gets when the camera reports none. */
  const DefaultPhotoName: string := "receipt.jpg"

  /** JavaScript truthiness of a `string | null`: present and not empty. */
  predicate Truthy(s: Option<string>) {
    s.Some? && s.value != ""
  }

  /** `remarks.trim() || null`. */
  function SavedRemarks(remarks: string): (r: Option<string>)
    ensures r.None? <==> AllWhiteSpace(remarks)
    ensures r.Some? ==> r.value == Trim(remarks) && r.value != ""
  {
    TrimEmptyIff(remarks);
    if Trim(remarks) == "" then None else Some(Trim(remarks))
  }

  /** `category === 'other' ? customTag.trim() : null`. */
  function SavedCustomTag(category: Category, customTag: string): (r: Option<string>)
    ensures r.Some? <==> category == Other
    ensures r.Some? ==> r.value == Trim(customTag)
  {
    if category == Other then Some(Trim(customTag)) else None
  }

  /**
   * The shape of a record saved through a form: a trimmed non-empty title, a
   * positive amount, an activity, remarks trimmed and non-empty when present,
   * a trimmed non-empty tag exactly for the `other` category, and `hasReceipt`
   * set whenever a receipt uri is.
   */
  predicate IsNormalized(d: ExpenseData) {
    && d.title != "" && IsTrimmed(d.title)
    && d.amount > 0.0
    && d.activity.Some?
    && (d.remarks.Some? ==> d.remarks.value != "" && IsTrimmed(d.remarks.value))
    && (d.customTag.Some? <==> d.category == Other)
    && (d.customTag.Some? ==> d.customTag.value != "" && IsTrimmed(d.customTag.value))
    && (Truthy(d.receiptUri) ==> d.hasReceipt)
  }

  /** A record built by a save has the shape `IsNormalized` describes. */
  lemma SavedFieldsNormalized(f: FormFields, d: ExpenseData)
    requires Trim(f.title) != "" && d.amount > 0.0
    requires d.category == Other ==> Trim(f.customTag) != ""
    requires d.title == Trim(f.title) && Some(d.amount) == f.amount && d.activity.Some?
    requires f.category == Some(d.category)
    requires d.remarks == SavedRemarks(f.remarks) && d.customTag == SavedCustomTag(d.category, f.customTag)
    requires Truthy(d.receiptUri) ==> d.hasReceipt
    ensures IsNormalized(d)
  {
  }

  /**
   * The record the add dialog passes to `addExpense` once every check passes:
   * trimmed title and tag, remarks trimmed or absent, a receipt flagged
   * exactly when a non-empty uri is attached, file name and uri as picked.
   */
  function NewExpenseData(f: FormFields): (d: ExpenseData)
    requires FirstFailure(f) == None
    ensures d.title == Trim(f.title)
    ensures Some(d.amount) == f.amount && Some(d.date) == f.date
    ensures Some(d.category) == f.category && d.activity == f.activity
    ensures d.remarks == SavedRemarks(f.remarks) && d.customTag == SavedCustomTag(d.category, f.customTag)
    ensures d.hasReceipt <==> Truthy(f.receiptUri)
    ensures d.receiptUri == f.receiptUri && d.receiptFilename == f.receiptFilename
    ensures IsNormalized(d)
  {
    var d := ExpenseData(
      Trim(f.title), f.amount.value, f.date.value, f.category.value, f.activity,
      SavedRemarks(f.remarks), Truthy(f.receiptUri), f.receiptFilename, f.receiptUri,
      SavedCustomTag(f.category.value, f.customTag));
    SavedFieldsNormalized(f, d);
    d
  }
}
