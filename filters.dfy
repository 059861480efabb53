/**
 * The filter panel of the history page: its four fields, kept in step with
 * the URL's search parameters, and the rules for its category list and its
 * Clear button.
 */
module Filters {
  import opened Wrappers
  import opened Types
  import opened SearchParams
  import opened History

  /** The panel's `filters` state; '' means the filter is off. */
  datatype FilterState = FilterState(startDate: string, endDate: string, kind: string, category: string)

  const NoFilters := FilterState("", "", "", "")

  function Field(f: FilterState, k: FilterKey): string {
    match k
    case StartDateKey => f.startDate
    case EndDateKey => f.endDate
    case TypeKey => f.kind
    case CategoryKey => f.category
  }

  /** `{ ...filters, [key]: value }`: field `k` becomes `v`, the others stay. */
  function WithField(f: FilterState, k: FilterKey, v: string): (r: FilterState)
    ensures Field(r, k) == v
    ensures forall j :: j != k ==> Field(r, j) == Field(f, j)
  {
    match k
    case StartDateKey => f.(startDate := v)
    case EndDateKey => f.(endDate := v)
    case TypeKey => f.(kind := v)
    case CategoryKey => f.(category := v)
  }

  /** The state the panel starts in: each field is its URL parameter, or '' when absent. */
  function InitialFilters(search: seq<Pair>): (f: FilterState)
    ensures forall k :: Field(f, k) == GetParam(search, KeyName(k)).GetOr("")
  {
    FilterState(
      GetParam(search, "startDate").GetOr(""),
      GetParam(search, "endDate").GetOr(""),
      GetParam(search, "type").GetOr(""),
      GetParam(search, "category").GetOr(""))
  }

  /** The parameters after `updateFilters(k, v)`: `set` when `v` is non-empty, `delete` when it is ''. */
  function UpdatedSearch(search: seq<Pair>, k: FilterKey, v: string): seq<Pair> {
    if v != "" then SetParam(search, KeyName(k), v) else DeleteParam(search, KeyName(k))
  }

  /** Every field of the panel shows what the URL says. */
  predicate InSync(f: FilterState, search: seq<Pair>) {
    forall k :: Field(f, k) == ParamText(search, k)
  }

  /** The Clear button is shown when some field is set. */
  predicate ClearVisible(f: FilterState) {
    f.startDate != "" || f.endDate != "" || f.kind != "" || f.category != ""
  }

  /** The category select is disabled for type `transfer`. */
  predicate CategoryDisabled(f: FilterState) {
    f.kind == "transfer"
  }

  /** The categories offered: all when no type is chosen, else those of the chosen type. */
  function CategoryOptions(categories: seq<Category>, kind: string): (r: seq<Category>)
    ensures forall c :: c in r <==> c in categories && (kind == "" || CategoryTypeName(c.kind) == kind)
    ensures |r| <= |categories|
  {
    if categories == [] then []
    else
      var c := categories[0];
      assert categories == [c] + categories[1..];
      if kind == "" || CategoryTypeName(c.kind) == kind
      then [c] + CategoryOptions(categories[1..], kind)
      else CategoryOptions(categories[1..], kind)
  }

  // ---------------------------------------------------------------------------

  /**
   * After `updateFilters(k, v)` parameter `k` is `v` when `v` is non-empty
   * and absent when it is ''; the other pairs of the URL are kept, in order.
   */
  lemma UpdatedSearchEffect(search: seq<Pair>, k: FilterKey, v: string)
    ensures v != "" ==> GetParam(UpdatedSearch(search, k, v), KeyName(k)) == Some(v)
    ensures v == "" ==> GetParam(UpdatedSearch(search, k, v), KeyName(k)) == None
    ensures DeleteParam(UpdatedSearch(search, k, v), KeyName(k)) == DeleteParam(search, KeyName(k))
    ensures forall j :: j != k ==> ParamText(UpdatedSearch(search, k, v), j) == ParamText(search, j)
  {
    SetParamEffect(search, KeyName(k), v);
    DeleteParamEffect(search, KeyName(k));
    forall j | j != k ensures ParamText(UpdatedSearch(search, k, v), j) == ParamText(search, j) {
      OtherNamesUnchanged(search, KeyName(k), v, KeyName(j));
    }
  }

  /** Applying the same update twice gives the same URL as applying it once. */
  lemma UpdateIdempotent(search: seq<Pair>, k: FilterKey, v: string)
    ensures UpdatedSearch(UpdatedSearch(search, k, v), k, v) == UpdatedSearch(search, k, v)
  {
    SetParamIdempotent(search, KeyName(k), v);
    DeleteParamEffect(search, KeyName(k));
  }

  /** The panel starts in step with its URL. */
  lemma InitiallyInSync(search: seq<Pair>)
    ensures InSync(InitialFilters(search), search)
  {
  }

  /** An update keeps the panel in step with the URL. */
  lemma UpdateKeepsInSync(f: FilterState, search: seq<Pair>, k: FilterKey, v: string)
    requires InSync(f, search)
    ensures InSync(WithField(f, k, v), UpdatedSearch(search, k, v))
  {
    UpdatedSearchEffect(search, k, v);
  }

  /** Reloading the page at the URL gives back the panel's state. */
  lemma ReloadRestoresFilters(f: FilterState, search: seq<Pair>)
    requires InSync(f, search)
    ensures InitialFilters(search) == f
  {
    assert Field(f, StartDateKey) == ParamText(search, StartDateKey);
    assert Field(f, EndDateKey) == ParamText(search, EndDateKey);
    assert Field(f, TypeKey) == ParamText(search, TypeKey);
    assert Field(f, CategoryKey) == ParamText(search, CategoryKey);
  }

  /** The URL a panel state is written to by setting its fields one by one from an empty URL. */
  function EncodeFilters(f: FilterState): seq<Pair> {
    var s1 := UpdatedSearch([], StartDateKey, f.startDate);
    var s2 := UpdatedSearch(s1, EndDateKey, f.endDate);
    var s3 := UpdatedSearch(s2, TypeKey, f.kind);
    UpdatedSearch(s3, CategoryKey, f.category)
  }

  /** Writing a panel state to a URL and reading it back gives the same state. */
  lemma EncodeRoundTrip(f: FilterState)
    ensures InitialFilters(EncodeFilters(f)) == f
  {
    var s1 := UpdatedSearch([], StartDateKey, f.startDate);
    var s2 := UpdatedSearch(s1, EndDateKey, f.endDate);
    var s3 := UpdatedSearch(s2, TypeKey, f.kind);
    var f1 := WithField(NoFilters, StartDateKey, f.startDate);
    var f2 := WithField(f1, EndDateKey, f.endDate);
    var f3 := WithField(f2, TypeKey, f.kind);
    var f4 := WithField(f3, CategoryKey, f.category);
    assert InSync(NoFilters, []);
    UpdateKeepsInSync(NoFilters, [], StartDateKey, f.startDate);
    UpdateKeepsInSync(f1, s1, EndDateKey, f.endDate);
    UpdateKeepsInSync(f2, s2, TypeKey, f.kind);
    UpdateKeepsInSync(f3, s3, CategoryKey, f.category);
    assert f4 == f;
    ReloadRestoresFilters(f, EncodeFilters(f));
  }

  /** The Clear button is shown exactly when the panel is not already clear. */
  lemma ClearVisibleIffFiltered(f: FilterState)
    ensures ClearVisible(f) <==> f != NoFilters
  {
  }

  /**
   * No category has type `transfer`, so that type offers no category (and
   * the select is disabled); with no type every category is offered.
   */
  lemma CategoryOptionsByType(categories: seq<Category>, f: FilterState)
    ensures CategoryDisabled(f) ==> CategoryOptions(categories, f.kind) == []
    ensures f.kind == "" ==> CategoryOptions(categories, f.kind) == categories
  {
    if CategoryDisabled(f) {
      NoTransferCategories(categories);
    }
    if f.kind == "" {
      AllCategoriesOffered(categories);
    }
  }

  lemma {:induction false} NoTransferCategories(categories: seq<Category>)
    ensures CategoryOptions(categories, "transfer") == []
  {
    if categories != [] {
      NoTransferCategories(categories[1..]);
    }
  }

  lemma {:induction false} AllCategoriesOffered(categories: seq<Category>)
    ensures CategoryOptions(categories, "") == categories
  {
    if categories != [] {
      AllCategoriesOffered(categories[1..]);
    }
  }

  // ---------------------------------------------------------------------------

  /** The filter panel: its field state and the URL it has navigated to. */
  class TransactionFilters {
    const categories: seq<Category>
    var filters: FilterState
    /** The search parameters of the current `/transactions` URL. */
    var search: seq<Pair>

    ghost predicate Valid()
      reads this
    {
      InSync(filters, search)
    }

    /** The options of the category select for the current type filter. */
    function CategoryChoices(): (r: seq<Category>)
      reads this
      ensures forall c :: c in r <==> c in categories && (filters.kind == "" || CategoryTypeName(c.kind) == filters.kind)
    {
      CategoryOptions(categories, filters.kind)
    }

    constructor (search0: seq<Pair>, categories0: seq<Category>)
      ensures Valid()
      ensures filters == InitialFilters(search0) && search == search0
      ensures categories == categories0
    {
      categories := categories0;
      filters := InitialFilters(search0);
      search := search0;
    }

    /** `updateFilters(k, v)`: the field changes, and the browser goes to the updated URL. */
    method UpdateFilters(k: FilterKey, v: string)
      requires Valid()
      modifies this
      ensures Valid()
      ensures filters == WithField(old(filters), k, v)
      ensures search == UpdatedSearch(old(search), k, v)
    {
      UpdateKeepsInSync(filters, search, k, v);
      filters := WithField(filters, k, v);
      var params := new ParamList(search);
      if v != "" {
        params.Set(KeyName(k), v);
      } else {
        params.Delete(KeyName(k));
      }
      search := params.pairs;
    }

    /** The Clear button: every field '' and the browser at bare `/transactions`. */
    method Clear()
      requires Valid() && ClearVisible(filters)
      modifies this
      ensures Valid()
      ensures filters == NoFilters && search == []
    {
      filters := NoFilters;
      search := [];
    }
  }

  /**
   * Starting from a URL with `type=expense` shows the Clear button and only
   * expense categories; clearing empties every field and offers every category.
   */
  method ClearFromTypeFilter(categories: seq<Category>)
    returns (shownBefore: bool, choicesBefore: seq<Category>, after: FilterState, url: seq<Pair>, choicesAfter: seq<Category>)
    ensures shownBefore && after == NoFilters && url == []
    ensures forall c :: c in choicesBefore <==> c in categories && c.kind == ExpenseCategory
    ensures choicesAfter == categories
  {
    var panel := new TransactionFilters([("type", "expense")], categories);
    shownBefore := ClearVisible(panel.filters);
    choicesBefore := panel.CategoryChoices();
    panel.Clear();
    after, url := panel.filters, panel.search;
    AllCategoriesOffered(categories);
    choicesAfter := panel.CategoryChoices();
  }
}
