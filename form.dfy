/**
 * The "Add Transaction" form: a draft record edited through its buttons and
 * inputs, the payload built from it on submit, and what a successful or a
 * failed insert does to the form.
 */
module Form {
  import opened Wrappers
  import opened Types

  /** The form's `formData`. `amount` is the text of the amount input. */
  datatype Draft = Draft(
    date: string,
    amount: string,
    kind: TxType,
    category: string,
    description: string,
    payerId: string,
    paymentMethod: PaymentMethod,
    transferTo: PaymentMethod)

  /** The draft the form starts with, and returns to after a saved transaction. */
  function DefaultDraft(userId: string, today: string): Draft {
    Draft(today, "", Expense, "", "", userId, Bank, Cash)
  }

  /** The Transfer button: type transfer, destination the method opposite the source. */
  function PressTransfer(d: Draft): (r: Draft)
    ensures r.kind == Transfer && r.transferTo != r.paymentMethod
    ensures r.paymentMethod == d.paymentMethod
    ensures r.(kind := d.kind, transferTo := d.transferTo) == d
  {
    d.(kind := Transfer, transferTo := if d.paymentMethod == Bank then Cash else Bank)
  }

  // ---------------------------------------------------------------------------
  // Amount text. The form sends `parseFloat(amount)`; whole rupiah are modelled:
  // an optional sign followed by the leading decimal digits, and None (NaN)
  // when no digit follows.

  predicate IsDigit(c: char) {
    '0' <= c <= '9'
  }

  /**
   * The shape of the value of a date input: `YYYY-MM-DD`. Whether the month
   * and the day exist in the calendar is not checked here.
   */
  predicate IsoDate(s: string) {
    && |s| == 10 && s[4] == '-' && s[7] == '-'
    && forall i :: 0 <= i < 10 && i != 4 && i != 7 ==> IsDigit(s[i])
  }

  /** The number of decimal digits at the start of `s`. */
  function LeadingDigits(s: string): (n: nat)
    ensures n <= |s|
    ensures forall i :: 0 <= i < n ==> IsDigit(s[i])
    ensures n < |s| ==> !IsDigit(s[n])
  {
    if s == [] || !IsDigit(s[0]) then 0 else 1 + LeadingDigits(s[1..])
  }

  /** The value of a text of decimal digits. */
  function DigitsValue(s: string): nat
    requires forall i :: 0 <= i < |s| ==> IsDigit(s[i])
  {
    if s == [] then 0
    else
      assert IsDigit(s[|s| - 1]);
      DigitsValue(s[..|s| - 1]) * 10 + (s[|s| - 1] as int - '0' as int)
  }

  function ParseAmount(s: string): (r: Option<int>)
    ensures r.None? <==> (var rest := if |s| > 0 && (s[0] == '-' || s[0] == '+') then s[1..] else s;
                          rest == [] || !IsDigit(rest[0]))
  {
    var negative := |s| > 0 && s[0] == '-';
    var rest := if |s| > 0 && (s[0] == '-' || s[0] == '+') then s[1..] else s;
    var n := LeadingDigits(rest);
    if n == 0 then None
    else
      var v: int := DigitsValue(rest[..n]);
      Some(if negative then -v else v)
  }

  /** The decimal text of a whole amount, as the amount input holds it. */
  function AmountText(n: nat): (s: string)
    ensures |s| > 0 && forall i :: 0 <= i < |s| ==> IsDigit(s[i])
  {
    var digit := ['0' + (n % 10) as char];
    if n < 10 then digit else AmountText(n / 10) + digit
  }

  /** Reading the text of a whole amount gives the amount back. */
  lemma {:induction false} ParseAmountText(n: nat)
    ensures ParseAmount(AmountText(n)) == Some(n)
  {
    var s := AmountText(n);
    AllDigitsLead(s);
    assert s[..|s|] == s;
    DigitsValueOfText(n);
  }

  lemma {:induction false} DigitsValueOfText(n: nat)
    ensures DigitsValue(AmountText(n)) == n
  {
    var s := AmountText(n);
    if n >= 10 {
      assert s[..|s| - 1] == AmountText(n / 10);
      DigitsValueOfText(n / 10);
    } else {
      assert s[..|s| - 1] == [];
    }
  }

  lemma {:induction false} AllDigitsLead(s: string)
    requires forall i :: 0 <= i < |s| ==> IsDigit(s[i])
    ensures LeadingDigits(s) == |s|
  {
    if s != [] {
      AllDigitsLead(s[1..]);
    }
  }

  /** An empty amount parses as NaN; `required` keeps it from being submitted. */
  lemma EmptyAmountIsNaN()
    ensures ParseAmount("") == None
  {
  }

  // ---------------------------------------------------------------------------

  /** The row the form asks the database to insert. */
  datatype Payload = Payload(
    date: string,
    amount: Option<int>,           // None stands for NaN
    kind: TxType,
    description: string,
    householdId: Option<string>,   // the first household profile's, or null
    paymentMethod: PaymentMethod,  // the source of funds
    category: string,
    transferTo: Option<PaymentMethod>,
    payerId: string)

  /** `profiles[0]?.household_id`. */
  function FirstHousehold(profiles: seq<Profile>): (r: Option<string>)
    ensures |profiles| > 0 ==> r == profiles[0].householdId
    ensures |profiles| == 0 ==> r == None
  {
    if |profiles| == 0 then None else profiles[0].householdId
  }

  /**
   * The shape every payload has: a destination exactly for transfers,
   * category "Transfer" on every transfer, and the current user as payer of
   * everything but an expense.
   */
  predicate WellFormedPayload(p: Payload, userId: string) {
    && (p.transferTo.Some? <==> p.kind == Transfer)
    && (p.kind == Transfer ==> p.category == "Transfer")
    && (p.kind != Expense ==> p.payerId == userId)
  }

  /** The payload `handleSubmit` builds from the draft. */
  function BuildPayload(d: Draft, profiles: seq<Profile>, userId: string): (p: Payload)
    ensures WellFormedPayload(p, userId)
    ensures p.date == d.date && p.kind == d.kind && p.description == d.description
    ensures p.paymentMethod == d.paymentMethod && p.amount == ParseAmount(d.amount)
    ensures p.householdId == FirstHousehold(profiles)
  {
    var common := Payload(d.date, ParseAmount(d.amount), d.kind, d.description,
                          FirstHousehold(profiles), d.paymentMethod, "", None, "");
    if d.kind == Transfer then
      common.(category := "Transfer", transferTo := Some(d.transferTo), payerId := userId)
    else
      common.(category := d.category, payerId := if d.kind == Income then userId else d.payerId)
  }

  /** A transfer's payload ignores the selected payer and category and carries the destination. */
  lemma TransferPayload(d: Draft, profiles: seq<Profile>, userId: string, payer: string, category: string)
    requires d.kind == Transfer
    ensures var p := BuildPayload(d, profiles, userId);
      && p.category == "Transfer" && p.payerId == userId && p.transferTo == Some(d.transferTo)
      && p == BuildPayload(d.(payerId := payer, category := category), profiles, userId)
  {
  }

  /** Income and expense payloads carry the selected category and no destination. */
  lemma NonTransferPayload(d: Draft, profiles: seq<Profile>, userId: string)
    requires d.kind != Transfer
    ensures var p := BuildPayload(d, profiles, userId);
      && p.category == d.category && p.transferTo == None
      && p.payerId == (if d.kind == Income then userId else d.payerId)
  {
  }

  // ---------------------------------------------------------------------------
  // What the form shows.

  predicate DestinationShown(d: Draft) {
    d.kind == Transfer
  }

  predicate CategoryShown(d: Draft) {
    d.kind != Transfer
  }

  predicate PayerShown(d: Draft) {
    d.kind == Expense
  }

  /** `name` is the value of a non-placeholder option of the category select for `kind`. */
  predicate Offered(categories: seq<Category>, kind: TxType, name: string) {
    exists c :: c in FormCategoryOptions(categories, kind) && c.name == name
  }

  /**
   * The inputs marked `required`, as the browser checks them before it lets
   * the form submit. The date input holds a date. The number input holds a number:
   * any other text leaves its value empty. Unless the draft is a transfer,
   * the controlled select shows the draft's category only when it is one of
   * the options for the current type; otherwise it falls back to the empty
   * placeholder, which `required` refuses.
   */
  predicate RequiredFilled(d: Draft, categories: seq<Category>) {
    && IsoDate(d.date)
    && ParseAmount(d.amount).Some?
    && (CategoryShown(d) ==> d.category != "" && Offered(categories, d.kind, d.category))
  }

  /** A payer button's label: the full name, or the e-mail when the name is empty. */
  function PayerButtonLabel(p: Profile): (r: string)
    ensures p.fullName != "" ==> r == p.fullName
    ensures p.fullName == "" ==> r == p.email
    ensures r == "" <==> p.fullName == "" && p.email == ""
  {
    if p.fullName != "" then p.fullName else p.email
  }

  /** The categories the form offers: those whose type is the draft's type. */
  function FormCategoryOptions(categories: seq<Category>, kind: TxType): (r: seq<Category>)
    ensures forall c :: c in r <==> c in categories && CategoryTxType(c.kind) == kind
    ensures kind == Transfer ==> r == []
  {
    if categories == [] then []
    else
      var c := categories[0];
      assert categories == [c] + categories[1..];
      if CategoryTypeName(c.kind) == TxTypeName(kind)
      then [c] + FormCategoryOptions(categories[1..], kind)
      else FormCategoryOptions(categories[1..], kind)
  }

  /**
   * A payload the browser lets through has a number as its amount, a date,
   * and, unless it is a transfer, the name of a category of its own type.
   */
  lemma SubmittedPayload(d: Draft, profiles: seq<Profile>, categories: seq<Category>, userId: string)
    requires RequiredFilled(d, categories)
    ensures var p := BuildPayload(d, profiles, userId);
      && p.amount.Some? && IsoDate(p.date)
      && (p.kind != Transfer ==>
            exists c :: c in categories && CategoryTxType(c.kind) == p.kind && c.name == p.category)
  {
    if CategoryShown(d) {
      var c :| c in FormCategoryOptions(categories, d.kind) && c.name == d.category;
      assert c in categories && CategoryTxType(c.kind) == d.kind;
    }
  }

  /**
   * A category picked for one type does not survive a switch of type: with
   * the test categories, "Food" chosen on an expense and the type then
   * switched to income leaves the select on its placeholder, and the form
   * does not submit. Nor does an amount that is not a number.
   */
  lemma StaleInputsBlocked(d: Draft)
    requires d.kind == Income && d.category == "Food"
    ensures !RequiredFilled(d, TestCategories())
    ensures !RequiredFilled(d.(amount := "abc"), TestCategories())
    ensures RequiredFilled(d.(category := "Salary", amount := "50000"), TestCategories()) <==> IsoDate(d.date)
  {
    var salary := TestCategories()[1];
    assert salary in FormCategoryOptions(TestCategories(), Income);
    assert ParseAmount("50000").Some? by { assert IsDigit("50000"[0]); }
  }

  // ---------------------------------------------------------------------------

  /** The form component: whether it is open, whether a save is under way, and the draft. */
  class TransactionForm {
    const profiles: seq<Profile>
    const categories: seq<Category>
    const userId: string
    var isOpen: bool
    var loading: bool
    var draft: Draft
    /** Refreshes of the page requested after a saved transaction. */
    var refreshes: nat
    /** Error alerts shown after a failed save. */
    var alerts: nat

    constructor (profiles0: seq<Profile>, categories0: seq<Category>, userId0: string, today: string)
      ensures profiles == profiles0 && categories == categories0 && userId == userId0
      ensures !isOpen && !loading && draft == DefaultDraft(userId0, today)
      ensures refreshes == 0 && alerts == 0
    {
      profiles, categories, userId := profiles0, categories0, userId0;
      isOpen, loading := false, false;
      draft := DefaultDraft(userId0, today);
      refreshes, alerts := 0, 0;
    }

    /** The submit button is enabled unless a save is under way. */
    predicate SubmitEnabled()
      reads this
    {
      !loading
    }

    /** The floating + button, shown while the form is closed. The draft is kept. */
    method Open()
      requires !isOpen
      modifies this`isOpen
      ensures isOpen
    {
      isOpen := true;
    }

    method Cancel()
      requires isOpen
      modifies this`isOpen
      ensures !isOpen
    {
      isOpen := false;
    }

    method ChooseExpense()
      requires isOpen
      modifies this`draft
      ensures draft == old(draft).(kind := Expense)
    {
      draft := draft.(kind := Expense);
    }

    method ChooseIncome()
      requires isOpen
      modifies this`draft
      ensures draft == old(draft).(kind := Income)
    {
      draft := draft.(kind := Income);
    }

    /** The Transfer button forces the destination opposite the current method. */
    method ChooseTransfer()
      requires isOpen
      modifies this`draft
      ensures draft == PressTransfer(old(draft))
      ensures draft.transferTo != draft.paymentMethod
    {
      var destination := if draft.paymentMethod == Bank then Cash else Bank;
      draft := draft.(kind := Transfer, transferTo := destination);
    }

    /** The Bank / Cash method buttons; the destination is not re-derived. */
    method ChooseMethod(m: PaymentMethod)
      requires isOpen
      modifies this`draft
      ensures draft == old(draft).(paymentMethod := m)
    {
      draft := draft.(paymentMethod := m);
    }

    /** The Bank / Cash destination buttons, shown for transfers. */
    method ChooseDestination(m: PaymentMethod)
      requires isOpen && DestinationShown(draft)
      modifies this`draft
      ensures draft == old(draft).(transferTo := m)
    {
      draft := draft.(transferTo := m);
    }

    /** The payer buttons, one per household profile, shown for expenses. */
    method ChoosePayer(i: nat)
      requires isOpen && PayerShown(draft) && i < |profiles|
      modifies this`draft
      ensures draft == old(draft).(payerId := profiles[i].id)
    {
      draft := draft.(payerId := profiles[i].id);
    }

    /** The date input, which holds a date or, once cleared, nothing. */
    method SetDate(date: string)
      requires isOpen
      requires date == "" || IsoDate(date)
      modifies this`draft
      ensures draft == old(draft).(date := date)
    {
      draft := draft.(date := date);
    }

    method SetAmount(amount: string)
      requires isOpen
      modifies this`draft
      ensures draft == old(draft).(amount := amount)
    {
      draft := draft.(amount := amount);
    }

    /**
     * The category select, shown unless the draft is a transfer. It yields
     * the placeholder's '' or the name of a category of the draft's type.
     */
    method SetCategory(category: string)
      requires isOpen && CategoryShown(draft)
      requires category == "" || Offered(categories, draft.kind, category)
      modifies this`draft
      ensures draft == old(draft).(category := category)
    {
      draft := draft.(category := category);
    }

    method SetDescription(description: string)
      requires isOpen
      modifies this`draft
      ensures draft == old(draft).(description := description)
    {
      draft := draft.(description := description);
    }

    /**
     * The first half of `handleSubmit`: the form is marked as saving and the
     * payload for the insert is built from the draft.
     */
    method BeginSubmit() returns (payload: Payload)
      requires isOpen && SubmitEnabled() && RequiredFilled(draft, categories)
      modifies this`loading
      ensures loading && !SubmitEnabled()
      ensures payload == BuildPayload(draft, profiles, userId)
      ensures payload.amount.Some?
      ensures payload.kind != Transfer ==>
                exists c :: c in categories && CategoryTxType(c.kind) == payload.kind && c.name == payload.category
    {
      SubmittedPayload(draft, profiles, categories, userId);
      loading := true;
      var householdId := if |profiles| > 0 then profiles[0].householdId else None;
      payload := Payload(draft.date, ParseAmount(draft.amount), draft.kind, draft.description,
                         householdId, draft.paymentMethod, "", None, "");
      if draft.kind == Transfer {
        payload := payload.(category := "Transfer");
        payload := payload.(transferTo := Some(draft.transferTo));
        payload := payload.(payerId := userId);
      } else {
        payload := payload.(category := draft.category);
        payload := payload.(payerId := if draft.kind == Income then userId else draft.payerId);
      }
    }

    /**
     * The second half of `handleSubmit`, once the insert has answered. On
     * success the draft returns to its defaults (dated `today`), the form
     * closes and a refresh is requested; on failure an alert is shown and
     * nothing else changes. Either way the save is over.
     */
    method FinishSubmit(inserted: bool, today: string)
      requires loading
      modifies this`draft, this`isOpen, this`loading, this`refreshes, this`alerts
      ensures !loading && SubmitEnabled()
      ensures inserted ==> (draft == DefaultDraft(userId, today) && !isOpen &&
                            refreshes == old(refreshes) + 1 && alerts == old(alerts))
      ensures !inserted ==> (draft == old(draft) && isOpen == old(isOpen) &&
                             refreshes == old(refreshes) && alerts == old(alerts) + 1)
    {
      if inserted {
        draft := DefaultDraft(userId, today);
        isOpen := false;
        refreshes := refreshes + 1;
      } else {
        alerts := alerts + 1;
      }
      loading := false;
    }
  }

  // ---------------------------------------------------------------------------
  // Sessions with the form.

  /**
   * Choosing Transfer and then the method that was picked as destination
   * gives a transfer whose source and destination are the same pool.
   */
  method SameSourceAndDestination(userId: string, today: string) returns (d: Draft)
    ensures d.kind == Transfer && d.paymentMethod == d.transferTo
  {
    var form := new TransactionForm([], [], userId, today);
    form.Open();
    form.ChooseTransfer();
    form.ChooseMethod(form.draft.transferTo);
    d := form.draft;
  }

  /** The two categories the form's tests offer: Food for expenses and Salary for income. */
  function TestCategories(): seq<Category> {
    [Category("cat-1", "Food", ExpenseCategory, true), Category("cat-2", "Salary", IncomeCategory, true)]
  }

  /** An expense of 50000 for "Food", saved successfully, from a freshly opened form. */
  method SaveLunch(profiles: seq<Profile>, userId: string, today: string, tomorrow: string)
    returns (payload: Payload, open: bool, draft: Draft, refreshes: nat)
    requires IsoDate(today)
    ensures payload.amount == Some(50000) && payload.category == "Food" && payload.description == "Lunch"
    ensures payload.kind == Expense && payload.paymentMethod == Bank && payload.payerId == userId
    ensures payload.transferTo == None && payload.date == today
    ensures !open && draft == DefaultDraft(userId, tomorrow) && refreshes == 1
  {
    var form := new TransactionForm(profiles, TestCategories(), userId, today);
    form.Open();
    form.SetAmount(AmountText(50000));
    var food := TestCategories()[0];
    assert food in FormCategoryOptions(form.categories, Expense);
    form.SetCategory("Food");
    form.SetDescription("Lunch");
    ParseAmountText(50000);
    assert RequiredFilled(form.draft, form.categories);
    payload := form.BeginSubmit();
    form.FinishSubmit(true, tomorrow);
    open, draft, refreshes := form.isOpen, form.draft, form.refreshes;
  }

  /** A transfer out of the bank, whose insert fails: the payload goes to cash and the form stays as it was. */
  method FailedTransfer(profiles: seq<Profile>, userId: string, today: string)
    returns (payload: Payload, open: bool, enabled: bool, draft: Draft)
    requires IsoDate(today)
    ensures payload.kind == Transfer && payload.category == "Transfer"
    ensures payload.payerId == userId && payload.paymentMethod == Bank && payload.transferTo == Some(Cash)
    ensures open && enabled && draft == PressTransfer(DefaultDraft(userId, today)).(amount := "250000")
  {
    var form := new TransactionForm(profiles, [], userId, today);
    form.Open();
    form.ChooseTransfer();
    form.SetAmount("250000");
    payload := form.BeginSubmit();
    form.FinishSubmit(false, today);
    open, enabled, draft := form.isOpen, form.SubmitEnabled(), form.draft;
  }

  /** Choosing Income hides the payer buttons and offers only income categories. */
  method ChooseIncomeHidesPayer(profiles: seq<Profile>, categories: seq<Category>, userId: string, today: string)
    returns (payerShown: bool, categoryShown: bool, options: seq<Category>)
    ensures !payerShown && categoryShown
    ensures forall c :: c in options <==> c in categories && c.kind == IncomeCategory
  {
    var form := new TransactionForm(profiles, categories, userId, today);
    form.Open();
    form.ChooseIncome();
    payerShown, categoryShown := PayerShown(form.draft), CategoryShown(form.draft);
    options := FormCategoryOptions(form.categories, form.draft.kind);
  }
}
