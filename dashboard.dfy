/**
 * The dashboard: the household's ten most recent transactions and the
 * summary card computed from them (total balance and its cash/bank split).
 */
module Dashboard {
  import opened Wrappers
  import opened Types
  import opened Rows
  import opened Totals

  /** The dashboard fetches at most this many rows. */
  const RecentLimit: nat := 10

  /**
   * The rows the dashboard fetches from the table: the household's rows,
   * newest first, limited to `RecentLimit`.
   */
  function RecentRows(table: seq<Transaction>, household: Option<string>): seq<Transaction> {
    Take(SortNewestFirst(Where(table, InHousehold(household))), RecentLimit)
  }

  /**
   * What one row does to the cash pool: rows whose method is not cash are
   * skipped; income adds its amount and every other type subtracts it.
   */
  function CashDelta(t: Transaction): int {
    if t.paymentMethod != Cash then 0
    else if t.kind == Income then t.amount else -t.amount
  }

  /**
   * What one row does to the bank pool: every row whose method is not cash
   * counts as bank; income adds its amount and every other type subtracts it.
   */
  function BankDelta(t: Transaction): int {
    if t.paymentMethod == Cash then 0
    else if t.kind == Income then t.amount else -t.amount
  }

  function CashBalance(rows: Option<seq<Transaction>>): int {
    match rows
    case None => 0
    case Some(s) => SumOf(s, CashDelta)
  }

  function BankBalance(rows: Option<seq<Transaction>>): int {
    match rows
    case None => 0
    case Some(s) => SumOf(s, BankDelta)
  }

  /** The figures on the dashboard's balance card. */
  datatype Summary = Summary(income: int, expense: int, balance: int, cash: int, bank: int)

  function Summarize(rows: Option<seq<Transaction>>): Summary {
    Summary(IncomeTotal(rows), ExpenseTotal(rows), NetFlow(rows), CashBalance(rows), BankBalance(rows))
  }

  // ---------------------------------------------------------------------------

  /** With no rows, or a failed fetch, every figure on the card is 0. */
  lemma EmptySummary()
    ensures Summarize(None) == Summary(0, 0, 0, 0, 0)
    ensures Summarize(Some([])) == Summary(0, 0, 0, 0, 0)
  {
  }

  /**
   * Each row lands in exactly one pool, cash when its method is cash and
   * bank otherwise, with income added and everything else subtracted.
   */
  lemma SplitRow(t: Transaction)
    ensures t.paymentMethod == Cash ==> BankDelta(t) == 0
    ensures t.paymentMethod != Cash ==> CashDelta(t) == 0
    ensures CashDelta(t) + BankDelta(t) == if t.kind == Income then t.amount else -t.amount
  {
  }

  /**
   * The split does not add up to the balance: every transfer is taken out of
   * its source pool and credited to no pool, so cash plus bank falls short of
   * income minus expense by the sum of the transfer amounts.
   */
  lemma {:induction false} SplitShortOfBalance(s: seq<Transaction>)
    ensures CashBalance(Some(s)) + BankBalance(Some(s))
         == NetFlow(Some(s)) - KindTotal(Some(s), Transfer)
  {
    KindTotalIsSumOfShares(s, Income);
    KindTotalIsSumOfShares(s, Expense);
    KindTotalIsSumOfShares(s, Transfer);
    SplitSums(s);
  }

  /** The row-by-row form of the shortfall, by induction on the rows. */
  lemma {:induction false} SplitSums(s: seq<Transaction>)
    ensures SumOf(s, CashDelta) + SumOf(s, BankDelta)
         == SumOf(s, KindShare(Income)) - SumOf(s, KindShare(Expense)) - SumOf(s, KindShare(Transfer))
  {
    if s != [] {
      SplitSums(s[1..]);
    }
  }

  /**
   * Adding a transfer of a non-negative amount never raises either pool: it
   * lowers its source pool by the amount, and its destination is ignored.
   */
  lemma TransferOnlyDebits(s: seq<Transaction>, t: Transaction)
    requires t.kind == Transfer && t.amount >= 0
    ensures CashBalance(Some(s + [t])) == CashBalance(Some(s)) - (if t.paymentMethod == Cash then t.amount else 0)
    ensures BankBalance(Some(s + [t])) == BankBalance(Some(s)) - (if t.paymentMethod == Cash then 0 else t.amount)
    ensures CashBalance(Some(s + [t])) <= CashBalance(Some(s))
    ensures BankBalance(Some(s + [t])) <= BankBalance(Some(s))
  {
    SumOfAppend(s, [t], CashDelta);
    SumOfAppend(s, [t], BankDelta);
  }

  /** No figure on the card depends on the order of the rows. */
  lemma SummaryOrderIndependent(a: seq<Transaction>, b: seq<Transaction>)
    requires multiset(a) == multiset(b)
    ensures Summarize(Some(a)) == Summarize(Some(b))
  {
    TotalsOrderIndependent(a, b, Income);
    TotalsOrderIndependent(a, b, Expense);
    SumOfPermutation(a, b, CashDelta);
    SumOfPermutation(a, b, BankDelta);
  }

  /** The recent rows are at most ten of the household's rows, newest first. */
  lemma RecentRowsAreHouseholdRows(table: seq<Transaction>, household: Option<string>)
    ensures var r := RecentRows(table, household);
      && |r| <= RecentLimit
      && NewestFirst(r)
      && (forall x :: x in r ==> x in table && InHousehold(household)(x))
  {
    var r := RecentRows(table, household);
    var all := SortNewestFirst(Where(table, InHousehold(household)));
    forall x | x in r ensures x in table && InHousehold(household)(x) {
      assert x in all;
      assert x in multiset(all);
    }
  }

  /**
   * The recent rows and the rows left out are together exactly the
   * household's rows, and every recent row is listed before every row left
   * out; so with at most ten household rows none is left out.
   */
  lemma RecentRowsAreTheNewest(table: seq<Transaction>, household: Option<string>)
    ensures var r := RecentRows(table, household);
      var all := SortNewestFirst(Where(table, InHousehold(household)));
      && multiset(r) + multiset(all[|r|..]) == multiset(Where(table, InHousehold(household)))
      && (forall i, j :: 0 <= i < |r| <= j < |all| ==> ListedBefore(r[i], all[j]))
      && (|all| <= RecentLimit ==> multiset(r) == multiset(Where(table, InHousehold(household))))
  {
    var all := SortNewestFirst(Where(table, InHousehold(household)));
    var r := Take(all, RecentLimit);
    SplitSorted(all, |r|);
  }

  /** Cutting a newest-first list in two keeps all of its rows and lists the first part first. */
  lemma SplitSorted(all: seq<Transaction>, n: nat)
    requires NewestFirst(all) && n <= |all|
    ensures multiset(all[..n]) + multiset(all[n..]) == multiset(all)
    ensures forall i, j :: 0 <= i < n <= j < |all| ==> ListedBefore(all[..n][i], all[j])
  {
    assert all == all[..n] + all[n..];
  }

  /** A salary of 1 000 000 paid into the bank and a lunch of 50 000 paid in cash. */
  lemma SalaryAndLunch(a: Transaction, b: Transaction)
    requires a.kind == Income && a.amount == 1000000 && a.paymentMethod == Bank
    requires b.kind == Expense && b.amount == 50000 && b.paymentMethod == Cash
    ensures Summarize(Some([a, b])) == Summary(1000000, 50000, 950000, -50000, 1000000)
  {
    var s := [a, b];
    assert s[1..] == [b] && s[1..][1..] == [];
    assert OfKind(s, Income) == [a] && [a][1..] == [];
    assert OfKind(s, Expense) == [b] && [b][1..] == [];
    assert SumOf([b], CashDelta) == CashDelta(b) + SumOf([], CashDelta);
    assert SumOf([b], BankDelta) == BankDelta(b) + SumOf([], BankDelta);
    assert SumOf(s, CashDelta) == CashDelta(a) + SumOf([b], CashDelta);
    assert SumOf(s, BankDelta) == BankDelta(a) + SumOf([b], BankDelta);
    assert SumOf([a], AmountOf) == 1000000 && SumOf([b], AmountOf) == 50000;
  }

  /**
   * The card sums only the fetched rows; when the household has at most
   * `RecentLimit` rows these are all of them, so the card shows the
   * household's whole summary.
   */
  lemma SmallHouseholdSummary(table: seq<Transaction>, household: Option<string>)
    requires |Where(table, InHousehold(household))| <= RecentLimit
    ensures Summarize(Some(RecentRows(table, household))) == Summarize(Some(Where(table, InHousehold(household))))
  {
    RecentRowsAreTheNewest(table, household);
    SummaryOrderIndependent(RecentRows(table, household), Where(table, InHousehold(household)));
  }
}
