/**
 * Sequences of fetched transaction rows: selecting rows by a condition and
 * putting them in the listing order both pages request from the database
 * (`date` descending, then `created_at` descending).
 */
module Rows {
  import opened Wrappers
  import opened Types

  /** The rows of `s` that satisfy `p`, in their original order (JavaScript's `filter`). */
  function Where(s: seq<Transaction>, p: Transaction -> bool): (r: seq<Transaction>)
    ensures forall x :: multiset(r)[x] == if p(x) then multiset(s)[x] else 0
    ensures forall x :: x in r <==> x in s && p(x)
    ensures |r| <= |s|
  {
    if s == [] then []
    else
      assert s == [s[0]] + s[1..];
      if p(s[0]) then [s[0]] + Where(s[1..], p) else Where(s[1..], p)
  }

  /**
   * The condition `household_id = h` on a row. A profile without a household
   * (`h` is None) matches no row.
   */
  function InHousehold(h: Option<string>): Transaction -> bool {
    (t: Transaction) => h.Some? && t.householdId == h.value
  }

  /** Two conditions that agree on every row of `s` select the same rows. */
  lemma {:induction false} WhereAgrees(s: seq<Transaction>, p: Transaction -> bool, q: Transaction -> bool)
    requires forall x :: x in s ==> p(x) == q(x)
    ensures Where(s, p) == Where(s, q)
  {
    if s != [] {
      WhereAgrees(s[1..], p, q);
    }
  }

  /** A condition that no row of `s` satisfies selects nothing. */
  lemma {:induction false} WhereNone(s: seq<Transaction>, p: Transaction -> bool)
    requires forall x :: x in s ==> !p(x)
    ensures Where(s, p) == []
  {
    if s != [] {
      WhereNone(s[1..], p);
    }
  }

  // ---------------------------------------------------------------------------
  // Text order. The database compares `date` (YYYY-MM-DD) and `created_at`
  // (ISO timestamps of one fixed format); for such texts the order of the
  // values is the lexicographic order of their characters.

  /** `a` sorts at or before `b`, character by character. */
  predicate LexLe(a: string, b: string)
    decreases |a|
  {
    |a| == 0 || (|b| > 0 && (a[0] < b[0] || (a[0] == b[0] && LexLe(a[1..], b[1..]))))
  }

  /** `a` sorts strictly before `b`. */
  predicate LexLt(a: string, b: string) {
    LexLe(a, b) && a != b
  }

  lemma {:induction false} LexLeReflexive(a: string)
    ensures LexLe(a, a)
  {
    if |a| > 0 {
      LexLeReflexive(a[1..]);
    }
  }

  lemma {:induction false} LexLeTotal(a: string, b: string)
    ensures LexLe(a, b) || LexLe(b, a)
  {
    if |a| > 0 && |b| > 0 && a[0] == b[0] {
      LexLeTotal(a[1..], b[1..]);
    }
  }

  lemma {:induction false} LexLeAntisymmetric(a: string, b: string)
    requires LexLe(a, b) && LexLe(b, a)
    ensures a == b
  {
    if |a| > 0 && |b| > 0 {
      LexLeAntisymmetric(a[1..], b[1..]);
      assert a == [a[0]] + a[1..] && b == [b[0]] + b[1..];
    }
  }

  lemma {:induction false} LexLeTransitive(a: string, b: string, c: string)
    requires LexLe(a, b) && LexLe(b, c)
    ensures LexLe(a, c)
  {
    if |a| > 0 && |b| > 0 && |c| > 0 && a[0] == b[0] == c[0] {
      LexLeTransitive(a[1..], b[1..], c[1..]);
    }
  }

  /** Of two distinct texts exactly one sorts strictly before the other. */
  lemma LexLtTrichotomy(a: string, b: string)
    ensures a == b || LexLt(a, b) || LexLt(b, a)
    ensures !(LexLt(a, b) && LexLt(b, a))
  {
    LexLeTotal(a, b);
    if LexLe(a, b) && LexLe(b, a) {
      LexLeAntisymmetric(a, b);
    }
  }

  // ---------------------------------------------------------------------------
  // Listing order: newest date first, and among rows of one date the most
  // recently created first.

  /** Row `x` may be listed before row `y`. */
  predicate ListedBefore(x: Transaction, y: Transaction) {
    LexLt(y.date, x.date) || (x.date == y.date && LexLe(y.createdAt, x.createdAt))
  }

  lemma ListedBeforeTotal(x: Transaction, y: Transaction)
    ensures ListedBefore(x, y) || ListedBefore(y, x)
  {
    LexLtTrichotomy(x.date, y.date);
    LexLeTotal(x.createdAt, y.createdAt);
  }

  lemma ListedBeforeTransitive(x: Transaction, y: Transaction, z: Transaction)
    requires ListedBefore(x, y) && ListedBefore(y, z)
    ensures ListedBefore(x, z)
  {
    if LexLt(y.date, x.date) && LexLt(z.date, y.date) {
      LexLeTransitive(z.date, y.date, x.date);
      if z.date == x.date {
        LexLeAntisymmetric(z.date, y.date);
      }
    } else if x.date == y.date && y.date == z.date {
      LexLeTransitive(z.createdAt, y.createdAt, x.createdAt);
    }
  }

  /** Every row of `s` is listed in date-descending, created_at-descending order. */
  predicate NewestFirst(s: seq<Transaction>) {
    forall i, j :: 0 <= i < j < |s| ==> ListedBefore(s[i], s[j])
  }

  /** `x` may be listed before every row of `s`. */
  predicate BeforeAll(x: Transaction, s: seq<Transaction>) {
    forall y :: y in s ==> ListedBefore(x, y)
  }

  lemma BeforeAllOfSameRows(x: Transaction, s: seq<Transaction>, t: seq<Transaction>)
    requires multiset(s) == multiset(t) && BeforeAll(x, t)
    ensures BeforeAll(x, s)
  {
    forall y | y in s ensures ListedBefore(x, y) {
      assert y in multiset(s);
      assert y in t;
    }
  }

  /** A row listed before every row of an ordered list may head it. */
  lemma PrependSorted(x: Transaction, s: seq<Transaction>)
    requires NewestFirst(s) && BeforeAll(x, s)
    ensures NewestFirst([x] + s)
  {
    var r := [x] + s;
    forall i, j | 0 <= i < j < |r| ensures ListedBefore(r[i], r[j]) {
      if i == 0 {
        assert r[j] == s[j - 1];
        assert r[j] in s;
      } else {
        assert r[i] == s[i - 1] && r[j] == s[j - 1];
      }
    }
  }

  /** The head of an ordered list is listed before every other row of it. */
  lemma HeadBeforeRest(x: Transaction, s: seq<Transaction>)
    requires NewestFirst(s) && s != [] && ListedBefore(x, s[0])
    ensures BeforeAll(x, s)
  {
    forall y | y in s ensures ListedBefore(x, y) {
      var j :| 0 <= j < |s| && s[j] == y;
      if j > 0 { ListedBeforeTransitive(x, s[0], y); }
    }
  }

  /** Places `x` into the ordered rows `s`. */
  function Insert(x: Transaction, s: seq<Transaction>): (r: seq<Transaction>)
    requires NewestFirst(s)
    ensures NewestFirst(r)
    ensures multiset(r) == multiset(s) + multiset{x}
  {
    if s == [] then [x]
    else if ListedBefore(x, s[0]) then
      HeadBeforeRest(x, s);
      PrependSorted(x, s);
      [x] + s
    else
      ListedBeforeTotal(x, s[0]);
      var rest := Insert(x, s[1..]);
      assert s == [s[0]] + s[1..];
      assert BeforeAll(s[0], s[1..] + [x]);
      BeforeAllOfSameRows(s[0], rest, s[1..] + [x]);
      PrependSorted(s[0], rest);
      [s[0]] + rest
  }

  /** The rows of `s` in listing order: the same rows, newest first. */
  function SortNewestFirst(s: seq<Transaction>): (r: seq<Transaction>)
    ensures NewestFirst(r)
    ensures multiset(r) == multiset(s)
    ensures |r| == |s|
  {
    if s == [] then []
    else
      assert s == [s[0]] + s[1..];
      var r := Insert(s[0], SortNewestFirst(s[1..]));
      assert |r| == |multiset(r)|;
      r
  }

  /** At most the first `n` rows (the database's `limit`). */
  function Take(s: seq<Transaction>, n: nat): (r: seq<Transaction>)
    ensures |r| == if |s| < n then |s| else n
    ensures r == s[..|r|]
  {
    if |s| <= n then s else s[..n]
  }
}
