/**
 * The records the app reads from and writes to its database: profiles,
 * transactions and categories, with their enumerated fields.
 */
module Types {
  import opened Wrappers

  /** A transaction's `type`. */
  datatype TxType = Income | Expense | Transfer

  /** A `payment_method` (the source of funds) or a `transfer_to` destination. */
  datatype PaymentMethod = Cash | Bank

  /** A profile's role in its household. */
  datatype Role = Husband | Wife | Member

  /** A category's `type`: categories exist only for income and expense. */
  datatype CategoryType = IncomeCategory | ExpenseCategory

  datatype Profile = Profile(
    id: string,
    email: string,
    fullName: string,
    avatarUrl: string,
    householdId: Option<string>,   // null until the user joins a household
    role: Role)

  datatype Transaction = Transaction(
    id: string,
    createdAt: string,
    date: string,                  // YYYY-MM-DD
    amount: int,                   // whole rupiah
    kind: TxType,                  // the `type` column
    category: string,
    description: string,
    householdId: string,
    payerId: string,
    paymentMethod: PaymentMethod,
    transferTo: Option<PaymentMethod>,
    createdBy: string,
    profiles: Option<Profile>)     // the payer, joined on payer_id

  datatype Category = Category(
    id: string,
    name: string,
    kind: CategoryType,            // the `type` column
    isDefault: bool)

  /** The text the database and the URL use for a transaction type. */
  function TxTypeName(t: TxType): string {
    match t
    case Income => "income"
    case Expense => "expense"
    case Transfer => "transfer"
  }

  /** Reads a transaction type back from its text; exactly the three names are accepted. */
  function ParseTxType(s: string): (r: Option<TxType>)
    ensures forall t :: r == Some(t) <==> s == TxTypeName(t)
  {
    if s == "income" then Some(Income)
    else if s == "expense" then Some(Expense)
    else if s == "transfer" then Some(Transfer)
    else None
  }

  function MethodName(m: PaymentMethod): string {
    match m
    case Cash => "cash"
    case Bank => "bank"
  }

  /**
   * The shape of the records: a role is one of three, a payment method is
   * cash or bank, and so is a transfer destination when the row has one.
   * A profile's household and a row's destination are optional (`Option`).
   */
  lemma RecordShapes(p: Profile, t: Transaction)
    ensures p.role == Husband || p.role == Wife || p.role == Member
    ensures MethodName(t.paymentMethod) == "cash" || MethodName(t.paymentMethod) == "bank"
    ensures t.transferTo.Some? ==> MethodName(t.transferTo.value) == "cash" || MethodName(t.transferTo.value) == "bank"
  {
  }

  /** The text of a category's type, as compared with a transaction type's text. */
  function CategoryTypeName(c: CategoryType): (r: string)
    ensures r != TxTypeName(Transfer)
    ensures r == "income" || r == "expense"
  {
    match c
    case IncomeCategory => "income"
    case ExpenseCategory => "expense"
  }

  /** The transaction type a category serves; never `transfer`. */
  function CategoryTxType(c: CategoryType): (t: TxType)
    ensures t != Transfer
    ensures TxTypeName(t) == CategoryTypeName(c)
  {
    match c
    case IncomeCategory => Income
    case ExpenseCategory => Expense
  }
}
