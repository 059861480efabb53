# Household finance: a verified model of its logic layer

This project models the small logic layer of a household-finance web app in Dafny. Members of a household record three kinds of transaction: income, expense, and transfer between their cash and bank pools. The app shows a dashboard and a filterable history of these transactions. The model covers:

- **Types** (`types.dfy`): the transaction, profile and category records and their enumerated fields.
- **Rows** (`rows.dfy`): the row filter behind every database query, the newest-first order, and the row limit. Newest first means date descending, then creation time descending, both compared as text.
- **Totals** (`totals.dfy`): the income, expense and net-flow sums that both pages compute.
- **Dashboard** (`dashboard.dfy`): the ten most recent household rows and the balance card computed from them: total, income, expense, and the cash/bank split.
- **SearchParams** (`search_params.dfy`): the URL query as an ordered list of name/value pairs. Get, set and delete follow section 6.2 of the WHATWG URL Standard. A `ParamList` class updates the list in place with loops.
- **History** (`history.dfy`): the transaction history page.
  - `BuildQuery` is a method. Like the source, it chains one condition per present filter onto the household query.
  - Its result is proved to select exactly the rows of the `InHistory` predicate.
  - Lemmas cover the filtered totals, monotonicity and the empty cases.
- **Filters** (`filters.dfy`): the filter panel, a `TransactionFilters` class.
  - It holds the four filter fields and the URL query it pushes.
  - Its invariant is that the fields always equal what the query says.
  - Also modelled: the category-option, disabled and clear-visible rules.
- **Form** (`form.dfy`): the Add Transaction form, a `TransactionForm` class.
  - State: `isOpen`, `loading` and the draft.
  - One method per button and input.
  - Submission is split into two halves, at the point where the insert is awaited.
  - `BuildPayload` is the function that builds the inserted row.
- **Item** (`item.dfy`): how one transaction row is presented: badge, sign prefix, title, and payer's first name.

Amounts are whole rupiah (`int`). Database reads become sequences of rows passed in. The result of an insert becomes a boolean parameter. The current date is a string parameter.

Two behaviours of the code are worth stating up front:

- **Transfers in the cash/bank split** (src/app/page.tsx:84-94). Every row that is not income is subtracted from its source pool, transfers included, and no pool is credited with a transfer's amount. `Dashboard.SplitShortOfBalance` and `Dashboard.TransferOnlyDebits` state this behaviour.
- **No validation on submit** (src/components/TransactionForm.tsx:45-67). `handleSubmit` checks neither that the amount is positive nor that a transfer's source differs from its destination. Only the browser's checks of the `required` inputs apply (`Form.RequiredFilled`). `Form.SameSourceAndDestination` shows that a transfer from a pool to the same pool can be built.

## Model

| member | source | states |
|---|---|---|
| Types.ParseTxType | src/types/index.ts:15 | a transaction type is exactly one of the three names "income", "expense", "transfer"; reading a text gives a type exactly when the text is that type's name |
| Types.RecordShapes | src/types/index.ts:1-31 | a profile's role is husband, wife or member; a row's payment method is cash or bank, and so is its destination when it has one (the destination and a profile's household are optional) |
| Types.CategoryTypeName | src/types/index.ts:29 | a category's type is "income" or "expense", never "transfer" |
| Types.CategoryTxType | src/types/index.ts:29 | every category type corresponds to a transaction type other than transfer, with the same name |
| Rows.Where | src/app/transactions/page.tsx:42-45 | a filtered query keeps each row satisfying the predicate with its full multiplicity and drops every other row |
| Rows.InHousehold | src/app/page.tsx:65 | the condition `household_id = h`: a row matches when it belongs to the household, and no row matches when the profile has no household |
| Rows.LexLeTotal | src/app/page.tsx:66-67 | any two date or timestamp texts are comparable |
| Rows.LexLeAntisymmetric | src/app/page.tsx:66-67 | two texts each at most the other are equal |
| Rows.LexLeTransitive | src/app/page.tsx:66-67 | the text order is transitive |
| Rows.LexLtTrichotomy | src/app/page.tsx:66-67 | of two texts, exactly one of equal, before, after holds |
| Rows.ListedBefore | src/app/transactions/page.tsx:46-47 | a row may be listed before another when its date is later, or the dates are equal and its created_at is not earlier |
| Rows.NewestFirst | src/app/page.tsx:66-67 | a list is in the listing order when every row may be listed before every later one |
| Rows.ListedBeforeTotal | src/app/transactions/page.tsx:46-47 | of any two rows one is listed before the other by (date desc, created_at desc) |
| Rows.ListedBeforeTransitive | src/app/transactions/page.tsx:46-47 | the listing order is transitive |
| Rows.Insert | src/app/transactions/page.tsx:46-47 | inserting a row into a newest-first list keeps it newest first and adds exactly that row |
| Rows.SortNewestFirst | src/app/transactions/page.tsx:46-47 | the ordered result is newest first (date descending, then created_at descending) and a permutation of its input |
| Rows.Take | src/app/page.tsx:68 | a limit keeps the first min(n, length) rows, in order |
| Totals.OfKind | src/app/page.tsx:73 | the rows of one type are exactly the input rows with that type |
| Totals.KindTotal | src/app/page.tsx:71-79 | the total of one type: the filtered rows' amounts added from 0, or 0 without rows; KindTotalIsSumOfShares states it per row |
| Totals.IncomeTotal | src/app/page.tsx:71-74 | the income figure is the total of type income |
| Totals.ExpenseTotal | src/app/page.tsx:76-79 | the expense figure is the total of type expense |
| Totals.NetFlow | src/app/page.tsx:81 | income minus expense; NetFlowIsSumOfDeltas states it per row |
| Totals.KindTotalIsSumOfShares | src/app/page.tsx:71-79 | the total of a type is the sum over all rows of the row's amount if it has that type, else 0 |
| Totals.NoRowsNoTotals | src/app/page.tsx:71-81 | with an absent or empty row list every total and the net flow are 0 |
| Totals.TotalsNonNegative | src/app/page.tsx:71-79 | with non-negative amounts, income and expense totals are non-negative |
| Totals.NetFlowIsSumOfDeltas | src/app/transactions/page.tsx:76-88 | net flow is the sum over rows of +amount for income, -amount for expense, 0 for transfer |
| Totals.TransfersDoNotCount | src/app/page.tsx:71-81 | adding a transfer row changes neither total nor the balance |
| Totals.TotalsOrderIndependent | src/app/page.tsx:71-81 | totals and net flow do not depend on the order of the rows |
| Totals.OnlyKindTotals | src/app/transactions/page.tsx:76-84 | when all rows have one type, the total of any other type is 0 |
| Dashboard.RecentRows | src/app/page.tsx:62-68 | the household's rows, newest first, limited to 10; RecentRowsAreTheNewest states what is shown |
| Dashboard.CashDelta | src/app/page.tsx:84-88 | a cash row adds its amount for income and subtracts it otherwise; other rows leave cash alone |
| Dashboard.BankDelta | src/app/page.tsx:90-94 | a row that is not cash adds its amount to bank for income and subtracts it otherwise |
| Dashboard.CashBalance | src/app/page.tsx:84-88 | the cash figure: the sum of the rows' cash deltas, 0 without rows |
| Dashboard.BankBalance | src/app/page.tsx:90-94 | the bank figure: the sum of the rows' bank deltas, 0 without rows |
| Dashboard.Summarize | src/app/page.tsx:71-94 | the card's five figures; SplitShortOfBalance and SummaryOrderIndependent state their relations |
| Dashboard.EmptySummary | src/app/page.tsx:71-94 | with no rows, income, expense, balance, cash and bank are all 0 |
| Dashboard.SplitRow | src/app/page.tsx:84-94 | each row lands in exactly one pool (cash if its method is cash, else bank), adding its amount for income and subtracting it for every other type |
| Dashboard.SplitShortOfBalance | src/app/page.tsx:71-94 | cash + bank equals balance minus the sum of the transfer amounts |
| Dashboard.TransferOnlyDebits | src/app/page.tsx:84-94 | a transfer lowers its source pool by its amount and credits no pool |
| Dashboard.SummaryOrderIndependent | src/app/page.tsx:71-94 | the whole card is independent of the order of the rows |
| Dashboard.RecentRowsAreHouseholdRows | src/app/page.tsx:62-68 | the dashboard rows are at most 10 rows of the table, all of the user's household, newest first |
| Dashboard.RecentRowsAreTheNewest | src/app/page.tsx:62-68 | the dashboard rows plus the rows left out are exactly the household's rows, every shown row is listed before every row left out, and with at most 10 household rows none is left out |
| Dashboard.SmallHouseholdSummary | src/app/page.tsx:62-94 | with at most 10 household rows the card equals the summary of the whole household |
| Dashboard.SalaryAndLunch | src/app/page.tsx:71-94 | income 1000000 by bank and expense 50000 in cash give income 1000000, expense 50000, balance 950000, cash -50000, bank 1000000 |
| SearchParams.GetParam | src/components/TransactionFilters.tsx:16-19 | get finds a value exactly when the name is present, and the value is that of the first pair with the name |
| SearchParams.DeleteParam | src/components/TransactionFilters.tsx:33 | delete leaves no pair with the name and keeps every other pair with its multiplicity |
| SearchParams.SetParam | src/components/TransactionFilters.tsx:31 | set gives the first pair with the name the value and removes the later ones, or appends the pair; its effect is stated by SetParamEffect |
| SearchParams.SetParamEffect | src/components/TransactionFilters.tsx:31 | after set the name reads as the value, exactly one pair has the name, and the other pairs are those of the old list |
| SearchParams.OtherNamesUnchanged | src/components/TransactionFilters.tsx:29-34 | set and delete of one name leave the value of every other name unchanged |
| SearchParams.GetIgnoresDeleted | src/components/TransactionFilters.tsx:33 | deleting one name does not change what another name reads as |
| SearchParams.DeleteParamEffect | src/components/TransactionFilters.tsx:33 | after delete the name reads as absent, and deleting again changes nothing |
| SearchParams.SetParamIdempotent | src/components/TransactionFilters.tsx:31 | setting the same name to the same value twice gives the list of setting it once |
| SearchParams.DeleteShorter | src/components/TransactionFilters.tsx:33 | delete never lengthens the list, and shortens it when the name is present |
| SearchParams.ParamList.constructor | src/components/TransactionFilters.tsx:29 | a parameter list is built as a copy of the current query |
| SearchParams.ParamList.Set | src/components/TransactionFilters.tsx:31 | the in-place set loop leaves the list equal to the specification of set on the old list |
| SearchParams.ParamList.Delete | src/components/TransactionFilters.tsx:33 | the in-place delete loop leaves the list equal to the specification of delete on the old list |
| History.ParamText | src/app/transactions/page.tsx:50-66 | the text of a filter parameter, '' when it is absent |
| History.AddCondition | src/app/transactions/page.tsx:51-66 | `query = query.gte/lte/eq(...)`: one more condition on the same household query; AddConditionMatches states its effect |
| History.FilterCondition | src/app/transactions/page.tsx:51-66 | the condition each filter adds: date at least startDate (:51), date at most endDate (:56), type equal (:61), category equal (:66) |
| History.RunQuery | src/app/transactions/page.tsx:69 | `await query`: the table's rows that match the query, newest first; RunQueryIsHistory states it for the built query |
| History.Passes | src/app/transactions/page.tsx:49-67 | a row passes a filter whose parameter is empty, and otherwise meets date >= startDate, date <= endDate, type equal or category equal |
| History.TypeFilterReadsType | src/app/transactions/page.tsx:59-62 | the type filter keeps a row exactly when the parameter is empty or reads as the row's type, and a parameter naming no type keeps no row |
| History.InHistory | src/app/transactions/page.tsx:42-67 | the history predicate: the row is the household's and passes all four filters; QuerySelectsHistory states that the built query matches it |
| History.History | src/app/transactions/page.tsx:42-69 | the history: the table's rows satisfying InHistory, newest first; its contents are stated by HistoryContents |
| History.AddConditionMatches | src/app/transactions/page.tsx:49-67 | chaining a condition onto the query keeps exactly the rows that matched before and meet the condition |
| History.BuildQuery | src/app/transactions/page.tsx:42-67 | the query built step by step is the household query followed by one condition per non-empty filter parameter, in the page's order: date at least startDate, date at most endDate, type equal, category equal |
| History.ConditionsUpToSelect | src/app/transactions/page.tsx:49-67 | after the conditions of the first n filters the query matches exactly the household rows passing those n filters |
| History.QuerySelectsHistory | src/app/transactions/page.tsx:42-67 | the built query matches a row exactly when it belongs to the household and meets every non-empty filter (date >= startDate, date <= endDate, type and category equal) |
| History.FetchHistory | src/app/transactions/page.tsx:42-69 | the page's fetch lists exactly the history: the household rows passing every non-empty filter, newest first |
| History.RunQueryIsHistory | src/app/transactions/page.tsx:42-69 | running a query that matches the history predicate gives the history: those rows, newest first |
| History.HistoryContents | src/app/transactions/page.tsx:45-67 | a row is in the history exactly when it is in the table and satisfies the predicate, and the history is newest first |
| History.NoFiltersWholeHousehold | src/app/transactions/page.tsx:42-47 | with no filter set the history is every household row, with no limit |
| History.AddingFilterNarrows | src/app/transactions/page.tsx:49-67 | setting a filter that was empty can only drop rows from the predicate |
| History.AddingFilterShrinks | src/app/transactions/page.tsx:49-67 | setting a filter that was empty yields a sub-multiset of the previous history |
| History.TransferFilterZeroTotals | src/app/transactions/page.tsx:60-88 | with type filter "transfer" every result row is a transfer and income, expense and net flow are 0 |
| History.InvertedRangeEmpty | src/app/transactions/page.tsx:50-57 | with endDate before startDate the history is empty and all totals are 0 |
| Filters.WithField | src/components/TransactionFilters.tsx:26 | an update changes only field k of the filter state |
| Filters.InitialFilters | src/components/TransactionFilters.tsx:15-20 | each initial field is its URL parameter's value, or empty when the parameter is absent |
| Filters.CategoryOptions | src/components/TransactionFilters.tsx:113-114 | a category is offered exactly when no type is chosen or its type is the chosen one |
| Filters.UpdatedSearchEffect | src/components/TransactionFilters.tsx:29-34 | a non-empty value is set in the URL, an empty one removes the parameter, and the other parameters keep their values |
| Filters.UpdateIdempotent | src/components/TransactionFilters.tsx:29-34 | applying the same update twice gives the URL of applying it once |
| Filters.InitiallyInSync | src/components/TransactionFilters.tsx:15-20 | the initial fields agree with the URL they were read from |
| Filters.UpdateKeepsInSync | src/components/TransactionFilters.tsx:25-35 | an update keeps the fields and the pushed URL in agreement |
| Filters.ReloadRestoresFilters | src/components/TransactionFilters.tsx:15-35 | reading fields back from a URL that agrees with them gives the same fields |
| Filters.EncodeRoundTrip | src/components/TransactionFilters.tsx:15-20 | any filter state written as parameters reads back as itself |
| Filters.ClearVisibleIffFiltered | src/components/TransactionFilters.tsx:124-127 | the Clear button is shown exactly when some field is non-empty |
| Filters.CategoryOptionsByType | src/components/TransactionFilters.tsx:110-114 | when the select is disabled (type transfer) no category is offered; with no type every category is |
| Filters.NoTransferCategories | src/components/TransactionFilters.tsx:113-114 | no category matches type "transfer" |
| Filters.AllCategoriesOffered | src/components/TransactionFilters.tsx:114 | with no type chosen the options are all categories, in order |
| Filters.TransactionFilters.constructor | src/components/TransactionFilters.tsx:12-20 | the panel starts with the fields read from the URL, in agreement with it |
| Filters.TransactionFilters.UpdateFilters | src/components/TransactionFilters.tsx:25-36 | field k becomes v, the URL is updated by set or delete, and fields and URL stay in agreement |
| Filters.TransactionFilters.Clear | src/components/TransactionFilters.tsx:124-132 | the Clear button, shown only while some field is set, empties all four fields and leaves the URL with no parameters |
| Filters.ClearFromTypeFilter | src/components/__tests__/TransactionFilters.test.tsx:64-76 | starting from type=expense the Clear button is shown and only expense categories are offered; clearing gives empty fields, a bare URL and every category |
| Filters.UpdatedSearch | src/components/TransactionFilters.tsx:29-34 | the URL after an update: set for a non-empty value, delete for an empty one; its effect is stated by UpdatedSearchEffect |
| Filters.ClearVisible | src/components/TransactionFilters.tsx:124 | the Clear button is shown when some field is set; ClearVisibleIffFiltered states both directions |
| Filters.CategoryDisabled | src/components/TransactionFilters.tsx:110 | the category select is disabled when the type filter is transfer; CategoryOptionsByType states that it then offers nothing |
| Filters.EncodeFilters | src/components/TransactionFilters.tsx:15-34 | a filter state written as URL parameters, one per non-empty field; EncodeRoundTrip states that it reads back as itself |
| Filters.TransactionFilters.CategoryChoices | src/components/TransactionFilters.tsx:110-119 | the panel's select offers a category exactly when no type is chosen or the category's type is the chosen one |
| Form.PressTransfer | src/components/TransactionForm.tsx:144-149 | the Transfer button sets the type to transfer and the destination to the pool opposite the source, and changes nothing else |
| Form.ParseAmount | src/components/TransactionForm.tsx:52 | the amount is NaN exactly when no digit follows the optional sign |
| Form.ParseAmountText | src/components/TransactionForm.tsx:52 | the decimal text of a whole amount parses back to that amount |
| Form.EmptyAmountIsNaN | src/components/TransactionForm.tsx:52 | an empty amount parses as NaN (the `required` attribute keeps it from being submitted) |
| Form.FirstHousehold | src/components/TransactionForm.tsx:55 | the payload's household is the first profile's, or null without profiles |
| Form.BuildPayload | src/components/TransactionForm.tsx:50-67 | every payload copies date, type, description, method and parsed amount from the draft, has a destination exactly for transfers, category "Transfer" on transfers, and the user as payer unless it is an expense |
| Form.TransferPayload | src/components/TransactionForm.tsx:59-62 | a transfer payload has category "Transfer", the user as payer and the draft's destination, whatever payer or category is selected |
| Form.NonTransferPayload | src/components/TransactionForm.tsx:63-67 | an income or expense payload has the draft's category, no destination, and payer the user for income and the selected payer for expense |
| Form.PayerButtonLabel | src/components/TransactionForm.tsx:304 | a payer button shows the full name, or the e-mail when the name is empty |
| Form.DestinationShown | src/components/TransactionForm.tsx:212 | the destination buttons are shown exactly for a transfer |
| Form.CategoryShown | src/components/TransactionForm.tsx:261 | the category select is shown exactly when the draft is not a transfer |
| Form.PayerShown | src/components/TransactionForm.tsx:285 | the payer buttons are shown exactly for an expense |
| Form.Offered | src/components/TransactionForm.tsx:272-279 | a name is an option of the category select when some category of the draft's type has it |
| Form.TransactionForm.SubmitEnabled | src/components/TransactionForm.tsx:332 | the submit button is enabled exactly when no save is under way |
| Form.DefaultDraft | src/components/TransactionForm.tsx:25-43 | the starting draft: today, empty amount, expense, empty category and description, the user as payer, bank, destination cash |
| Form.RequiredFilled | src/components/TransactionForm.tsx:164-279 | the browser submits only when the date input holds a `YYYY-MM-DD` date, the number input holds a number, and unless it is a transfer the category is one the select offers for the current type |
| Form.SubmittedPayload | src/components/TransactionForm.tsx:45-67 | a payload the browser lets through has a numeric amount, a `YYYY-MM-DD` date, and unless it is a transfer the name of a category of its own type |
| Form.StaleInputsBlocked | src/components/TransactionForm.tsx:248-279 | "Food" picked on an expense and the type switched to income blocks submission, so does a non-numeric amount, and "Salary" with amount 50000 is accepted whenever the date is a `YYYY-MM-DD` date |
| Form.FormCategoryOptions | src/components/TransactionForm.tsx:273-275 | the form offers exactly the categories of the draft's type, none for a transfer |
| Form.TransactionForm.constructor | src/components/TransactionForm.tsx:20-43 | the form starts closed, not saving, with the default draft (today, empty amount, expense, empty category and description, the user as payer, bank, destination cash) |
| Form.TransactionForm.Open | src/components/TransactionForm.tsx:93-101 | the + button, shown while closed, opens the form keeping the draft |
| Form.TransactionForm.Cancel | src/components/TransactionForm.tsx:109-114 | Cancel closes the form keeping the draft |
| Form.TransactionForm.ChooseExpense | src/components/TransactionForm.tsx:122 | Expense changes only the type |
| Form.TransactionForm.ChooseIncome | src/components/TransactionForm.tsx:133 | Income changes only the type |
| Form.TransactionForm.ChooseTransfer | src/components/TransactionForm.tsx:144-149 | Transfer sets the type and forces the destination opposite the source |
| Form.TransactionForm.ChooseMethod | src/components/TransactionForm.tsx:181-206 | the method buttons change only the source, without re-deriving the destination |
| Form.TransactionForm.ChooseDestination | src/components/TransactionForm.tsx:212-243 | the destination buttons, shown only for transfers, change only the destination |
| Form.TransactionForm.ChoosePayer | src/components/TransactionForm.tsx:285-307 | the payer buttons, one per profile and shown only for expenses, change only the payer |
| Form.TransactionForm.SetDate | src/components/TransactionForm.tsx:164-170 | the date input, which holds a `YYYY-MM-DD` date or nothing, changes only the date |
| Form.TransactionForm.SetAmount | src/components/TransactionForm.tsx:248-257 | the amount input changes only the amount text |
| Form.TransactionForm.SetCategory | src/components/TransactionForm.tsx:261-279 | the category select, hidden for transfers, yields the placeholder or a category of the draft's type, and changes only the category |
| Form.TransactionForm.SetDescription | src/components/TransactionForm.tsx:315-325 | the description input changes only the description |
| Form.TransactionForm.BeginSubmit | src/components/TransactionForm.tsx:45-67 | submitting (possible only while enabled and with the required inputs filled) marks the form as saving, disables the button, and sends the payload built from the draft, whose amount is a number and whose category, unless it is a transfer, is one of its type |
| Form.TransactionForm.FinishSubmit | src/components/TransactionForm.tsx:69-90 | on success the draft is reset to the defaults, the form closes and a refresh is requested; on failure an alert is shown and the draft and openness are unchanged; either way saving ends |
| Form.SameSourceAndDestination | src/components/TransactionForm.tsx:142-206 | choosing Transfer and then the destination's pool as method yields a transfer whose source equals its destination |
| Form.SaveLunch | src/components/__tests__/TransactionForm.test.tsx:93-138 | an expense of 50000 for Food, Lunch, from a fresh form, inserts amount 50000, bank, the user as payer, then closes the form with a default draft and requests one refresh |
| Form.FailedTransfer | src/components/TransactionForm.tsx:85-90 | a transfer out of the bank whose insert fails sends destination cash and leaves the form open, enabled and with its draft |
| Form.ChooseIncomeHidesPayer | src/components/__tests__/TransactionForm.test.tsx:140-161 | after Income the payer buttons are hidden, the category select is shown, and only income categories are offered |
| Item.BadgeOf | src/components/TransactionItem.tsx:14-28 | each row gets exactly one of three badges, and anything neither income nor transfer gets the expense badge |
| Item.AmountPrefix | src/components/TransactionItem.tsx:51-55 | the prefix is "-" exactly for expense, "" exactly for transfer, "+" exactly for income |
| Item.PrefixMatchesNetDelta | src/components/TransactionItem.tsx:42-56 | for a positive amount the prefix's sign is the sign of the row's effect on net flow, and the expense badge goes with the minus |
| Item.ToUpper | src/components/TransactionItem.tsx:33 | upper-casing keeps the length and upper-cases each ASCII letter |
| Item.Title | src/components/TransactionItem.tsx:31-35 | a transfer reads "Transfer to " and its upper-cased destination ("undefined" when missing); other rows show the description, or the category when it is empty |
| Item.TransferTitles | src/components/TransactionItem.tsx:32-33 | the transfer titles are "Transfer to CASH" and "Transfer to BANK" |
| Item.FirstWord | src/components/TransactionItem.tsx:38 | the first word is the longest space-free prefix of the name |
| Item.FirstWordOfName | src/components/TransactionItem.tsx:38 | a word followed by a space and anything is cut back to that word |
| Item.PayerLabel | src/components/TransactionItem.tsx:38 | the payer label is the first word of the joined profile's full name, or "Unknown" when the profile is missing or that word is empty; it is never empty and has no space |
| Item.PayerFirstName | src/components/TransactionItem.tsx:38 | a payer named "first rest" is shown as "first" |
| Item.LeadingSpaceIsUnknown | src/components/TransactionItem.tsx:38 | a full name starting with a space shows as "Unknown" |

## Left out

- Database and network calls are not modelled: authentication, the profile, category and transaction fetches, the insert, and the router's push and refresh. Fetched rows are input sequences. The insert's outcome is a boolean. A pushed URL takes effect at once, so the filter panel's `search` is the pushed query.
- The household-profile fetch and its fallback (src/app/page.tsx:43-53) are I/O; the form takes its profiles as a constant.
- The category fetch's `or` filter (default categories or the household's) is left out; categories are an input sequence.
- formatCurrency and toLocaleDateString are locale formatting and are left out. Row dates are `YYYY-MM-DD` strings, and today's date is a parameter.
- History.BuildQuery: the `startDate` and `endDate` parameters come from the URL and are compared with row dates as text. For canonical `YYYY-MM-DD` values this is the date order. The database compares a malformed or non-canonical value as a date or rejects it, and a rejected query lists no rows; neither is modelled.
- Form.ParseAmount: models parseFloat only for an optional sign followed by decimal digits. Leading whitespace, fractions and exponents are not read, because amounts are whole rupiah.
- Item.ToUpper: upper-cases ASCII letters only; Unicode case mapping is not modelled.
- Percent-encoding of the query string is not modelled; the query is a list of decoded name/value pairs.
- Filters.InitialFilters: reads only the first value of a repeated parameter, as URLSearchParams get does.
- History.ParamText: reads only the first value of a repeated parameter. On the history page a repeated parameter arrives as an array (`string[]`), and the query builder's template literal turns it into the values joined by commas. That case is not modelled.
- The payment method has two values, so the `null` method mentioned at src/app/page.tsx:92 cannot occur; the model's "not cash" is that code's test.
- A null `full_name` and a missing joined profile are both modelled as a missing or empty name, which gives "Unknown".
- A profile without a household queries `household_id = null`, which matches no row. The model's household predicate is false for every row in that case.
- History.BuildQuery: a type filter that is not one of the three type names matches no row, as an equality against the column's text would; the database's rejection of such a value is not modelled.
- Rows.SortNewestFirst: rows with equal `date` and `created_at` come out in the order of an insertion sort. The database leaves the order of such ties unspecified. So `History.FetchHistory`'s equality with `History.History`, and which of several tied rows reach the dashboard's ten (`Dashboard.RecentRows`), hold for that one order only.
- Form.IsoDate: the date input's value is checked for its `YYYY-MM-DD` shape only; whether the month and day exist in the calendar is not modelled.
- The React rendering, styling classes, spinner and placeholders are not modelled, apart from the visibility rules the state decides.
- Floating-point accumulation is not modelled; sums are exact integers.
