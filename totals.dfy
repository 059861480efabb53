/**
 * The sums both pages compute over the rows they fetched: the total of one
 * transaction type (`filter` by type, then `reduce` adding `amount` from 0,
 * then `|| 0` for a missing result) and income minus expense.
 */
module Totals {
  import opened Wrappers
  import opened Types
  import opened Rows

  /** The sum of `f` over the rows of `s`. */
  function SumOf(s: seq<Transaction>, f: Transaction -> int): int {
    if s == [] then 0 else f(s[0]) + SumOf(s[1..], f)
  }

  function AmountOf(t: Transaction): int {
    t.amount
  }

  /** The condition `t.type === k`. */
  function HasKind(k: TxType): Transaction -> bool {
    (t: Transaction) => t.kind == k
  }

  /** The rows of type `k`, in their original order. */
  function OfKind(s: seq<Transaction>, k: TxType): (r: seq<Transaction>)
    ensures forall x :: x in r <==> x in s && x.kind == k
  {
    Where(s, HasKind(k))
  }

  /**
   * The total amount of the fetched rows of type `k`; 0 when the fetch gave
   * no rows at all (`rows` is None) or none of that type.
   */
  function KindTotal(rows: Option<seq<Transaction>>, k: TxType): int {
    match rows
    case None => 0
    case Some(s) => SumOf(OfKind(s, k), AmountOf)
  }

  /** `income` on the dashboard, `totalIncome` on the history page. */
  function IncomeTotal(rows: Option<seq<Transaction>>): int {
    KindTotal(rows, Income)
  }

  /** `expense` on the dashboard, `totalExpense` on the history page. */
  function ExpenseTotal(rows: Option<seq<Transaction>>): int {
    KindTotal(rows, Expense)
  }

  /** `balance` on the dashboard, `netFlow` on the history page. */
  function NetFlow(rows: Option<seq<Transaction>>): int {
    IncomeTotal(rows) - ExpenseTotal(rows)
  }

  /** What one row adds to income minus expense: a transfer adds nothing. */
  function NetDelta(t: Transaction): int {
    match t.kind
    case Income => t.amount
    case Expense => -t.amount
    case Transfer => 0
  }

  /** What one row adds to the total of type `k`. */
  function KindShare(k: TxType): Transaction -> int {
    (t: Transaction) => if t.kind == k then t.amount else 0
  }

  // ---------------------------------------------------------------------------

  lemma {:induction false} SumOfAppend(a: seq<Transaction>, b: seq<Transaction>, f: Transaction -> int)
    ensures SumOf(a + b, f) == SumOf(a, f) + SumOf(b, f)
  {
    if a == [] {
      assert a + b == b;
    } else {
      assert (a + b)[1..] == a[1..] + b;
      SumOfAppend(a[1..], b, f);
    }
  }

  /** A sum does not depend on the order of the rows. */
  lemma {:induction false} SumOfPermutation(a: seq<Transaction>, b: seq<Transaction>, f: Transaction -> int)
    requires multiset(a) == multiset(b)
    ensures SumOf(a, f) == SumOf(b, f)
  {
    if a == [] {
      assert |b| == |multiset(b)| == 0;
    } else {
      var x := a[0];
      assert a == [x] + a[1..];
      assert x in multiset(b);
      var i :| 0 <= i < |b| && b[i] == x;
      assert b == b[..i] + [x] + b[i + 1..];
      var rest := b[..i] + b[i + 1..];
      RemoveOne(a, b, i);
      SumOfPermutation(a[1..], rest, f);
      SumOfAppend(b[..i] + [x], b[i + 1..], f);
      SumOfAppend(b[..i], [x], f);
      SumOfAppend(b[..i], b[i + 1..], f);
    }
  }

  /** Taking the head of `a` out of `a` and its occurrence at `i` out of `b` leaves the same rows. */
  lemma RemoveOne(a: seq<Transaction>, b: seq<Transaction>, i: nat)
    requires multiset(a) == multiset(b) && a != [] && i < |b| && b[i] == a[0]
    ensures multiset(a[1..]) == multiset(b[..i] + b[i + 1..])
  {
    var x, rest := a[0], b[..i] + b[i + 1..];
    assert a == [x] + a[1..];
    assert b == b[..i] + [x] + b[i + 1..];
    assert multiset(a) == multiset{x} + multiset(a[1..]);
    assert multiset(b) == multiset(b[..i]) + multiset{x} + multiset(b[i + 1..]);
    assert multiset(rest) == multiset(b[..i]) + multiset(b[i + 1..]);
    assert multiset(a[1..]) == multiset(a) - multiset{x};
    assert multiset(rest) == multiset(b) - multiset{x};
  }

  /** The filter-then-add total of type `k` is the sum of each row's share. */
  lemma {:induction false} KindTotalIsSumOfShares(s: seq<Transaction>, k: TxType)
    ensures KindTotal(Some(s), k) == SumOf(s, KindShare(k))
  {
    if s != [] {
      KindTotalIsSumOfShares(s[1..], k);
    }
  }

  lemma {:induction false} SumOfNonNegative(s: seq<Transaction>, f: Transaction -> int)
    requires forall x :: x in s ==> f(x) >= 0
    ensures SumOf(s, f) >= 0
  {
    if s != [] {
      assert s[0] in s;
      SumOfNonNegative(s[1..], f);
    }
  }

  /** With no rows, or a failed fetch, every total is 0. */
  lemma NoRowsNoTotals(k: TxType)
    ensures KindTotal(None, k) == 0 && KindTotal(Some([]), k) == 0
    ensures NetFlow(None) == 0 && NetFlow(Some([]))  == 0
  {
  }

  /** Non-negative amounts give non-negative type totals. */
  lemma TotalsNonNegative(s: seq<Transaction>, k: TxType)
    requires forall i :: 0 <= i < |s| ==> s[i].amount >= 0
    ensures KindTotal(Some(s), k) >= 0
    ensures IncomeTotal(Some(s)) >= 0 && ExpenseTotal(Some(s)) >= 0
  {
    forall k' ensures KindTotal(Some(s), k') >= 0 {
      SumOfNonNegative(OfKind(s, k'), AmountOf);
    }
  }

  /** Income minus expense is the sum of what each row adds; transfers add nothing. */
  lemma {:induction false} NetFlowIsSumOfDeltas(s: seq<Transaction>)
    ensures NetFlow(Some(s)) == SumOf(s, NetDelta)
  {
    if s != [] {
      NetFlowIsSumOfDeltas(s[1..]);
    }
  }

  /** Transfers contribute to neither income nor expense. */
  lemma TransfersDoNotCount(s: seq<Transaction>, t: Transaction)
    requires t.kind == Transfer
    ensures IncomeTotal(Some(s + [t])) == IncomeTotal(Some(s))
    ensures ExpenseTotal(Some(s + [t])) == ExpenseTotal(Some(s))
    ensures NetFlow(Some(s + [t])) == NetFlow(Some(s))
  {
    forall k | k != Transfer ensures KindTotal(Some(s + [t]), k) == KindTotal(Some(s), k) {
      KindTotalIsSumOfShares(s + [t], k);
      KindTotalIsSumOfShares(s, k);
      SumOfAppend(s, [t], KindShare(k));
    }
  }

  /** Every total is independent of the order in which the rows arrive. */
  lemma TotalsOrderIndependent(a: seq<Transaction>, b: seq<Transaction>, k: TxType)
    requires multiset(a) == multiset(b)
    ensures KindTotal(Some(a), k) == KindTotal(Some(b), k)
    ensures NetFlow(Some(a)) == NetFlow(Some(b))
  {
    forall k' ensures KindTotal(Some(a), k') == KindTotal(Some(b), k') {
      KindTotalIsSumOfShares(a, k');
      KindTotalIsSumOfShares(b, k');
      SumOfPermutation(a, b, KindShare(k'));
    }
  }

  /** Rows all of type `k` have no total of any other type. */
  lemma OnlyKindTotals(s: seq<Transaction>, k: TxType, other: TxType)
    requires forall i :: 0 <= i < |s| ==> s[i].kind == k
    requires other != k
    ensures KindTotal(Some(s), other) == 0
  {
    WhereNone(s, HasKind(other));
  }
}
