/**
 * The app's records: expenses, the user profile, calendar dates, the fixed
 * sample data a first run starts from, and the category display lookups.
 */
module Model {
  import opened Wrappers

  datatype Category = Food | Travel | Stay | Transport | Other

  datatype Activity = Meeting | Client | Office | Field | OtherActivity

  /** A calendar date as the `YYYY-MM-DD` string names it: month 1..12, day 1..31. */
  datatype Date = Date(year: int, month: int, day: int)

  /** Dates in calendar order: by year, then month, then day. */
  predicate DateLe(a: Date, b: Date) {
    a.year < b.year || (a.year == b.year && (a.month < b.month || (a.month == b.month && a.day <= b.day)))
  }

  /** `DateLe` is a total order. */
  lemma DateLeTotalOrder(a: Date, b: Date, c: Date)
    ensures DateLe(a, a)
    ensures DateLe(a, b) || DateLe(b, a)
    ensures DateLe(a, b) && DateLe(b, a) ==> a == b
    ensures DateLe(a, b) && DateLe(b, c) ==> DateLe(a, c)
  {
  }

  /** Every field of an expense except its id: what `addExpense` is given. */
  datatype ExpenseData = ExpenseData(
    title: string,
    amount: real,
    date: Date,
    category: Category,
    activity: Option<Activity>,
    remarks: Option<string>,
    hasReceipt: bool,
    receiptFilename: Option<string>,
    receiptUri: Option<string>,
    customTag: Option<string>)

  datatype Expense = Expense(id: int, data: ExpenseData)

  datatype UserProfile = UserProfile(
    name: string,
    email: string,
    department: string,
    employeeId: string,
    profileImageUri: Option<string>)

  /** The profile a first run starts from. */
  function DefaultProfile(): (p: UserProfile)
    ensures p.profileImageUri == None
  {
    UserProfile("John Doe", "john.doe@company.com", "Sales", "EMP-12345", None)
  }

  /** The six records a first run starts from, with ids 1 to 6 in list order. */
  function SampleExpenses(): (s: seq<Expense>)
    ensures |s| == 6
    ensures forall i :: 0 <= i < |s| ==> s[i].id == i + 1
  {
    [ Expense(1, ExpenseData("Lunch Meeting", 3500.50, Date(2024, 5, 15), Food, Some(Client),
                             Some("Meeting with potential client"), true, Some("lunch_receipt.jpg"), None, None)),
      Expense(2, ExpenseData("Conference Hotel", 12000.00, Date(2024, 5, 14), Stay, Some(Meeting),
                             Some("Annual industry conference"), true, Some("hotel_invoice.pdf"), None, None)),
      Expense(3, ExpenseData("Flight to Delhi", 5500.99, Date(2024, 5, 13), Travel, Some(Field),
                             Some("Site visit to Delhi office"), false, None, None, None)),
      Expense(4, ExpenseData("Taxi from Airport", 850.20, Date(2024, 5, 14), Transport, Some(Field),
                             Some("Transport to hotel"), false, None, None, None)),
      Expense(5, ExpenseData("Client Coffee", 450.00, Date(2024, 5, 16), Food, Some(Client),
                             Some("Follow-up discussion"), false, None, None, None)),
      Expense(6, ExpenseData("Software Subscription", 2500.00, Date(2024, 5, 1), Other, Some(Office),
                             Some("Annual subscription renewal"), true, Some("sub_confirm.png"), None, Some("Adobe CC"))) ]
  }

  /**
   * The sample data marks receipts that have no uri: `hasReceipt` does not
   * imply a receipt reference, so it is no invariant of stored records.
   */
  lemma SampleReceiptWithoutUri()
    ensures exists e :: e in SampleExpenses() && e.data.hasReceipt && e.data.receiptUri == None
  {
    assert SampleExpenses()[0].data.hasReceipt && SampleExpenses()[0].data.receiptUri == None;
  }

  /** The key a category has in the stored records and in the list filter. */
  function CategoryName(c: Category): (r: string)
    ensures r != "all"
  {
    match c
    case Food => "food"
    case Travel => "travel"
    case Stay => "stay"
    case Transport => "transport"
    case Other => "other"
  }

  /** Distinct categories have distinct keys, so a key names at most one category. */
  lemma CategoryNameInjective(c: Category, d: Category)
    ensures CategoryName(c) == CategoryName(d) ==> c == d
  {
  }

  /** `getCategoryIcon`: the icon name shown for a category. */
  function CategoryIcon(c: Category): (r: string)
    ensures r != ""
  {
    match c
    case Food => "cutlery"
    case Travel => "plane"
    case Stay => "building"
    case Transport => "car"
    case Other => "tag"
  }

  datatype Colors = Colors(bg: string, text: string)

  /** `getCategoryColor`: background and text colour for a category. */
  function CategoryColor(c: Category): (r: Colors)
    ensures |r.bg| == 7 && |r.text| == 7 && r.bg[0] == '#' && r.text[0] == '#'
  {
    match c
    case Food => Colors("#fff1f1", "#da1e28")
    case Travel => Colors("#e5f6ff", "#0043ce")
    case Stay => Colors("#f3e8ff", "#8a3ffc")
    case Transport => Colors("#defbe6", "#198038")
    case Other => Colors("#e0e0e0", "#161616")
  }

  /** Both lookups are total and tell every category apart. */
  lemma CategoryLookupsInjective(c: Category, d: Category)
    ensures CategoryIcon(c) == CategoryIcon(d) ==> c == d
    ensures CategoryColor(c) == CategoryColor(d) ==> c == d
    ensures CategoryColor(c).text == CategoryColor(d).text ==> c == d
  {
  }
}
