/**
 * The transaction-history page: the query it builds from the URL's search
 * parameters (household, start date, end date, type, category), the rows
 * that query returns, and the filtered summary.
 */
module History {
  import opened Wrappers
  import opened Types
  import opened Rows
  import opened Totals
  import opened SearchParams

  /** The four filter parameters the page reads from its URL. */
  datatype FilterKey = StartDateKey | EndDateKey | TypeKey | CategoryKey

  function KeyName(k: FilterKey): string {
    match k
    case StartDateKey => "startDate"
    case EndDateKey => "endDate"
    case TypeKey => "type"
    case CategoryKey => "category"
  }

  /** The text of a filter parameter; '' when it is absent. */
  function ParamText(params: seq<Pair>, k: FilterKey): string {
    GetParam(params, KeyName(k)).GetOr("")
  }

  /**
   * Row `t` passes the filter `k`: trivially when its parameter is absent or
   * empty, otherwise by `date >= startDate`, `date <= endDate`, `type = type`
   * or `category = category`.
   */
  predicate Passes(params: seq<Pair>, k: FilterKey, t: Transaction) {
    var v := ParamText(params, k);
    v != "" ==>
      match k
      case StartDateKey => LexLe(v, t.date)
      case EndDateKey => LexLe(t.date, v)
      case TypeKey => TxTypeName(t.kind) == v
      case CategoryKey => t.category == v
  }

  /**
   * The type filter keeps a row exactly when the parameter is empty or reads
   * as the row's type; a parameter naming no type keeps no row.
   */
  lemma TypeFilterReadsType(params: seq<Pair>, t: Transaction)
    ensures Passes(params, TypeKey, t) <==>
              ParamText(params, TypeKey) == "" || ParseTxType(ParamText(params, TypeKey)) == Some(t.kind)
    ensures ParseTxType(ParamText(params, TypeKey)).None? && ParamText(params, TypeKey) != "" ==>
              !Passes(params, TypeKey, t)
  {
  }

  /** The rows the page asks for: the user's household, passing all four filters. */
  predicate InHistory(household: Option<string>, params: seq<Pair>, t: Transaction) {
    && InHousehold(household)(t)
    && Passes(params, StartDateKey, t)
    && Passes(params, EndDateKey, t)
    && Passes(params, TypeKey, t)
    && Passes(params, CategoryKey, t)
  }

  // ---------------------------------------------------------------------------
  // The query as the page builds it, one condition at a time.

  datatype Column = DateColumn | TypeColumn | CategoryColumn

  /** `gte`, `lte` and `eq` on one column. */
  datatype Condition =
    | AtLeast(column: Column, bound: string)
    | AtMost(column: Column, bound: string)
    | EqualTo(column: Column, value: string)

  /** The household the rows must belong to, and the further conditions. */
  datatype Query = Query(household: Option<string>, conditions: seq<Condition>)

  function ColumnText(t: Transaction, c: Column): string {
    match c
    case DateColumn => t.date
    case TypeColumn => TxTypeName(t.kind)
    case CategoryColumn => t.category
  }

  predicate Holds(c: Condition, t: Transaction) {
    match c
    case AtLeast(col, b) => LexLe(b, ColumnText(t, col))
    case AtMost(col, b) => LexLe(ColumnText(t, col), b)
    case EqualTo(col, v) => ColumnText(t, col) == v
  }

  predicate Matches(q: Query, t: Transaction) {
    InHousehold(q.household)(t) && forall i :: 0 <= i < |q.conditions| ==> Holds(q.conditions[i], t)
  }

  /** `q` with one more condition (`query = query.gte(...)` and the like). */
  function AddCondition(q: Query, c: Condition): Query {
    q.(conditions := q.conditions + [c])
  }

  /** A row matches the extended query iff it matches `q` and the new condition. */
  lemma AddConditionMatches(q: Query, c: Condition)
    ensures forall t :: Matches(AddCondition(q, c), t) <==> Matches(q, t) && Holds(c, t)
    ensures AddCondition(q, c).household == q.household
    ensures |AddCondition(q, c).conditions| == |q.conditions| + 1
  {
    var r := AddCondition(q, c);
    forall t ensures Matches(r, t) <==> Matches(q, t) && Holds(c, t) {
      if Matches(r, t) {
        assert Holds(r.conditions[|q.conditions|], t);
        forall i | 0 <= i < |q.conditions| ensures Holds(q.conditions[i], t) {
          assert r.conditions[i] == q.conditions[i];
        }
      }
      if Matches(q, t) && Holds(c, t) {
        forall i | 0 <= i < |r.conditions| ensures Holds(r.conditions[i], t) {
          if i < |q.conditions| {
            assert r.conditions[i] == q.conditions[i];
          }
        }
      }
    }
  }

  /** The condition the page adds for filter `k` with parameter text `v`. */
  function FilterCondition(k: FilterKey, v: string): Condition {
    match k
    case StartDateKey => AtLeast(DateColumn, v)
    case EndDateKey => AtMost(DateColumn, v)
    case TypeKey => EqualTo(TypeColumn, v)
    case CategoryKey => EqualTo(CategoryColumn, v)
  }

  /** The filters in the order the page applies them. */
  function KeyAt(n: nat): FilterKey
    requires n < 4
  {
    if n == 0 then StartDateKey
    else if n == 1 then EndDateKey
    else if n == 2 then TypeKey
    else CategoryKey
  }

  /** In the household, and passing the first `n` filters the page applies. */
  predicate PassesFirst(household: Option<string>, params: seq<Pair>, n: nat, t: Transaction)
    requires n <= 4
  {
    InHousehold(household)(t) && forall i :: 0 <= i < n ==> Passes(params, KeyAt(i), t)
  }

  /**
   * One step of the query builder: adding the condition of filter `n` when
   * its parameter is non-empty, and nothing otherwise, extends the filters
   * the query applies by that one.
   */
  lemma BuildStep(q: Query, q': Query, household: Option<string>, params: seq<Pair>, n: nat, k: FilterKey, v: string)
    requires n < 4 && k == KeyAt(n) && v == ParamText(params, k)
    requires q' == if v != "" then AddCondition(q, FilterCondition(k, v)) else q
    requires Selects(q, household, params, n)
    ensures Selects(q', household, params, n + 1)
  {
    AddConditionMatches(q, FilterCondition(k, v));
    forall t ensures PassesFirst(household, params, n + 1, t)
                 <==> PassesFirst(household, params, n, t) && Passes(params, k, t) {
      if PassesFirst(household, params, n, t) && Passes(params, k, t) {
        forall i | 0 <= i < n + 1 ensures Passes(params, KeyAt(i), t) {
        }
      }
    }
  }

  /** `q` matches exactly the rows of the history. */
  ghost predicate SelectsHistory(q: Query, household: Option<string>, params: seq<Pair>) {
    forall t :: Matches(q, t) <==> InHistory(household, params, t)
  }

  /** `q` selects exactly the household's rows that pass the first `n` filters. */
  ghost predicate Selects(q: Query, household: Option<string>, params: seq<Pair>, n: nat)
    requires n <= 4
  {
    forall t :: Matches(q, t) <==> PassesFirst(household, params, n, t)
  }

  lemma PassesAllFour(household: Option<string>, params: seq<Pair>, t: Transaction)
    ensures PassesFirst(household, params, 4, t) <==> InHistory(household, params, t)
  {
    if InHistory(household, params, t) {
      forall i | 0 <= i < 4 ensures Passes(params, KeyAt(i), t) {
      }
    }
    if PassesFirst(household, params, 4, t) {
      assert Passes(params, KeyAt(0), t) && Passes(params, KeyAt(1), t);
      assert Passes(params, KeyAt(2), t) && Passes(params, KeyAt(3), t);
    }
  }

  /** The conditions the page adds for the first `n` filters, in its order. */
  function ConditionsUpTo(params: seq<Pair>, n: nat): seq<Condition>
    requires n <= 4
  {
    if n == 0 then []
    else
      var k := KeyAt(n - 1);
      var v := ParamText(params, k);
      var before := ConditionsUpTo(params, n - 1);
      if v != "" then before + [FilterCondition(k, v)] else before
  }

  /** The household query with the conditions of the first `n` filters selects the rows passing them. */
  lemma {:induction false} ConditionsUpToSelect(household: Option<string>, params: seq<Pair>, n: nat)
    requires n <= 4
    ensures Selects(Query(household, ConditionsUpTo(params, n)), household, params, n)
  {
    if n == 0 {
      SelectsNothingYet(household, params);
    } else {
      ConditionsUpToSelect(household, params, n - 1);
      var k := KeyAt(n - 1);
      BuildStep(Query(household, ConditionsUpTo(params, n - 1)), Query(household, ConditionsUpTo(params, n)),
                household, params, n - 1, k, ParamText(params, k));
    }
  }

  lemma SelectsNothingYet(household: Option<string>, params: seq<Pair>)
    ensures Selects(Query(household, []), household, params, 0)
  {
  }

  /** The query with all four filters' conditions selects exactly the history. */
  lemma QuerySelectsHistory(household: Option<string>, params: seq<Pair>)
    ensures SelectsHistory(Query(household, ConditionsUpTo(params, 4)), household, params)
  {
    var q := Query(household, ConditionsUpTo(params, 4));
    ConditionsUpToSelect(household, params, 4);
    forall t ensures Matches(q, t) <==> InHistory(household, params, t) {
      PassesAllFour(household, params, t);
    }
  }

  /**
   * Builds the page's query: the household condition, then a condition for
   * each filter parameter that is present and non-empty, in the order start
   * date, end date, type, category.
   */
  method BuildQuery(household: Option<string>, params: seq<Pair>) returns (q: Query)
    ensures q == Query(household, ConditionsUpTo(params, 4))
  {
    q := Query(household, []);
    var startDate := ParamText(params, StartDateKey);
    if startDate != "" {
      q := AddCondition(q, AtLeast(DateColumn, startDate));
    }
    assert q.conditions == ConditionsUpTo(params, 1);
    var endDate := ParamText(params, EndDateKey);
    if endDate != "" {
      q := AddCondition(q, AtMost(DateColumn, endDate));
    }
    assert q.conditions == ConditionsUpTo(params, 2);
    var kind := ParamText(params, TypeKey);
    if kind != "" {
      q := AddCondition(q, EqualTo(TypeColumn, kind));
    }
    assert q.conditions == ConditionsUpTo(params, 3);
    var category := ParamText(params, CategoryKey);
    if category != "" {
      q := AddCondition(q, EqualTo(CategoryColumn, category));
    }
    assert q.conditions == ConditionsUpTo(params, 4);
  }

  /** What the database returns for `q`: the matching rows, newest first. */
  function RunQuery(table: seq<Transaction>, q: Query): seq<Transaction> {
    SortNewestFirst(Where(table, (t: Transaction) => Matches(q, t)))
  }

  /** The page's list: the rows of the table in its history, newest first. */
  function History(table: seq<Transaction>, household: Option<string>, params: seq<Pair>): seq<Transaction> {
    SortNewestFirst(Where(table, (t: Transaction) => InHistory(household, params, t)))
  }

  // ---------------------------------------------------------------------------

  /** Running the built query lists exactly the history. */
  lemma RunQueryIsHistory(table: seq<Transaction>, q: Query, household: Option<string>, params: seq<Pair>)
    requires SelectsHistory(q, household, params)
    ensures RunQuery(table, q) == History(table, household, params)
  {
    WhereAgrees(table, (t: Transaction) => Matches(q, t), (t: Transaction) => InHistory(household, params, t));
  }

  /**
   * The page's fetch: the query built from the URL, run against the table,
   * lists exactly the history.
   */
  method FetchHistory(table: seq<Transaction>, household: Option<string>, params: seq<Pair>)
    returns (rows: seq<Transaction>)
    ensures rows == History(table, household, params)
  {
    var q := BuildQuery(household, params);
    QuerySelectsHistory(household, params);
    RunQueryIsHistory(table, q, household, params);
    rows := RunQuery(table, q);
  }

  /**
   * The history lists each row of the table exactly as often as the table
   * holds it when the row is in the household and passes every filter, and
   * never otherwise; it is in listing order.
   */
  lemma HistoryContents(table: seq<Transaction>, household: Option<string>, params: seq<Pair>)
    ensures var h := History(table, household, params);
      && NewestFirst(h)
      && (forall t :: multiset(h)[t] == if InHistory(household, params, t) then multiset(table)[t] else 0)
      && (forall t :: t in h <==> t in table && InHistory(household, params, t))
  {
    var h := History(table, household, params);
    forall t ensures t in h <==> t in table && InHistory(household, params, t) {
      assert t in h <==> t in multiset(h);
    }
  }

  /** With no filter parameter set, the history is all of the household's rows, with no limit. */
  lemma NoFiltersWholeHousehold(table: seq<Transaction>, household: Option<string>, params: seq<Pair>)
    requires forall k :: ParamText(params, k) == ""
    ensures History(table, household, params) == SortNewestFirst(Where(table, InHousehold(household)))
  {
    WhereAgrees(table, (t: Transaction) => InHistory(household, params, t), InHousehold(household));
  }

  /** Setting a filter that was not set keeps the other filters and can only reject more rows. */
  lemma AddingFilterNarrows(household: Option<string>, params: seq<Pair>, k: FilterKey, v: string, t: Transaction)
    requires ParamText(params, k) == ""
    ensures InHistory(household, SetParam(params, KeyName(k), v), t) ==> InHistory(household, params, t)
  {
    var params' := SetParam(params, KeyName(k), v);
    forall j | j != k ensures ParamText(params', j) == ParamText(params, j) {
      OtherNamesUnchanged(params, KeyName(k), v, KeyName(j));
    }
    assert Passes(params, k, t);
  }

  /**
   * Setting a filter that was not set can only remove rows: every row of the
   * new history was in the old one, at most as often.
   */
  lemma AddingFilterShrinks(table: seq<Transaction>, household: Option<string>, params: seq<Pair>, k: FilterKey, v: string)
    requires ParamText(params, k) == ""
    ensures multiset(History(table, household, SetParam(params, KeyName(k), v)))
         <= multiset(History(table, household, params))
  {
    var params' := SetParam(params, KeyName(k), v);
    HistoryContents(table, household, params);
    HistoryContents(table, household, params');
    forall t ensures multiset(History(table, household, params'))[t] <= multiset(History(table, household, params))[t] {
      AddingFilterNarrows(household, params, k, v, t);
    }
  }

  /** Filtering by type `transfer` leaves no income, no expense and no net flow. */
  lemma TransferFilterZeroTotals(table: seq<Transaction>, household: Option<string>, params: seq<Pair>)
    requires ParamText(params, TypeKey) == "transfer"
    ensures var h := Some(History(table, household, params));
      IncomeTotal(h) == 0 && ExpenseTotal(h) == 0 && NetFlow(h) == 0
  {
    var h := History(table, household, params);
    HistoryContents(table, household, params);
    forall i | 0 <= i < |h| ensures h[i].kind == Transfer {
      assert h[i] in h;
      assert Passes(params, TypeKey, h[i]);
    }
    OnlyKindTotals(h, Transfer, Income);
    OnlyKindTotals(h, Transfer, Expense);
  }

  /** A start date after the end date leaves the history empty, and every total 0. */
  lemma InvertedRangeEmpty(table: seq<Transaction>, household: Option<string>, params: seq<Pair>)
    requires ParamText(params, StartDateKey) != "" && ParamText(params, EndDateKey) != ""
    requires LexLt(ParamText(params, EndDateKey), ParamText(params, StartDateKey))
    ensures History(table, household, params) == []
    ensures var h := Some(History(table, household, params));
      IncomeTotal(h) == 0 && ExpenseTotal(h) == 0 && NetFlow(h) == 0
  {
    var start, end := ParamText(params, StartDateKey), ParamText(params, EndDateKey);
    forall t | t in table ensures !InHistory(household, params, t) {
      if Passes(params, StartDateKey, t) && Passes(params, EndDateKey, t) {
        LexLeTransitive(start, t.date, end);
        LexLeAntisymmetric(start, end);
      }
    }
    WhereNone(table, (t: Transaction) => InHistory(household, params, t));
  }
}
