# expensio: the logic of the finance screens, in Dafny

expensio is a personal-finance web application: React screens over a hosted
database of accounts, transactions, budgets, budget categories, monthly
plans and projects. Almost every screen fetches rows, shows them and writes
rows back. This project models the rules those screens apply in between,
and proves what each rule guarantees:

- **Creating budgets** (`CreateBudgetModal`), split over three modules:
  - `AutoCategorizer`: the three-tier category guess. It tries an exact
    name, then a name contained in the input, then a keyword table.
  - `BulkParser`: reading pasted `name amount` lines into proposals,
    including the exact match the line pattern `/^(.+?)\s+([\d,.]+)\s*$/`
    finds.
  - `BudgetForm`: editing the proposal list and the rows a submit writes,
    with the dialog's state as the class `BudgetDialog`.
- **The budget table** (`BudgetTable`): the category options, the search and
  category filter, the stable sort with its ascending/descending toggle, the
  pages, and the table's page state (`BudgetTableView`).
- **The data-entry dialogs**:
  - `ReviewReceipt`: editing scanned receipt lines and saving them as
    expenses.
  - `AddTransaction` and `ProjectExpense`: the expense forms, with keyword
    auto-categorisation, the category dropdown and the account debit. The
    parts both share are in `ExpenseEntry`.
  - `CategoryManager`: the category form.
  - `AddAccount`: the account form.
- **The aggregations on the pages**:
  - `BudgetPage`: spending and colour per budget.
  - `MonthlyPlanner`: the 50/30/20 group totals and the plan save.
  - `ProjectsPage`: totals per project.
  - `AccountsPage`: icons and balance totals.
  - `AccountSummary`: the dashboard totals.
  - `BudgetSummary`: the summary cards.
  - `TransactionsPage`: the transaction search and its display.
- **The receipt upload path** (`ReceiptUploader`).

Shared modules:

- `Strings`:
  - ASCII `toLowerCase`;
  - `includes`;
  - JavaScript `trim`, `trimStart` and `trimEnd` over the JavaScript
    white-space characters;
  - `split('\n')`;
  - string `<`;
  - `Array.from(new Set(xs)).sort()`;
  - integer rendering.
- `JsNumber`: `parseFloat`, where NaN is `None`.
- `Lists`: `find`, `filter`, sums, and a stable insertion sort.
- `Types`: the records of the database rows.
- `Wrappers`: `Option`.

Money is `real`. Strings are `seq<char>`.

Each dialog is a class, and so is the budget table. Its fields are the
component's `useState` values, and its methods are the handlers, with
`modifies` naming the fields a handler sets. Some components keep only
fetched rows, a search term or the typed income. These are the pages, the
planner, the dashboard summary and the receipt uploader, and they are
modelled as functions of that state. The database is not modelled. A handler returns
the write it would send:
- an insert, update or list of inserts, as a datatype;
- or `None` when it returns early.

Whether the database accepted a write is a parameter (`insertOk`,
`writeOk`). Current dates, times and "today" are parameters too.

## Model

| member | source | states |
|---|---|---|
| AutoCategorizer.FirstRule | components/budget/CreateBudgetModal.tsx:133-139 | the early-return loop over the keyword table stops at the first key the lower-cased name contains, and finds nothing when it contains none |
| AutoCategorizer.Categorize | components/budget/CreateBudgetModal.tsx:107-141 | the two `find`s and the keyword loop, run step by step, give the guess `AutoCategory` defines |
| AutoCategorizer.ExactMatchWins | components/budget/CreateBudgetModal.tsx:108-112 | the first category equal to the input ignoring case wins, in its stored casing |
| AutoCategorizer.SubstringMatchWins | components/budget/CreateBudgetModal.tsx:114-116 | with no exact match, the first category in list order whose lower-cased name occurs in the lower-cased input wins, in its stored casing |
| AutoCategorizer.KeywordTierIsRuleLabel | components/budget/CreateBudgetModal.tsx:118-140 | with no category match, the guess is exactly the label of the first key found, or "" when no key occurs, because the existing-category lookup compares names case-sensitively |
| AutoCategorizer.RuleLabelIsKnown | components/budget/CreateBudgetModal.tsx:119-131 | every rule's label is Food, Toiletries, Transport, Utilities, Housing or Entertainment |
| AutoCategorizer.AutoCategoryRange | components/budget/CreateBudgetModal.tsx:107-141 | the guess is "", one of the six labels, or the stored name of a known category |
| AutoCategorizer.AutoCategoryCases | components/budget/CreateBudgetModal.tsx:107-141 | the guess is "", the label of the first key the input contains, or a known category's name |
| AutoCategorizer.EmptyCategoryCapturesAll | components/budget/CreateBudgetModal.tsx:115-116 | a known category with an empty name captures every input at the second tier: the guess is always a known name, and without an exact match it is that category's name or the name of one listed before it |
| AutoCategorizer.AtaRuleFires | components/budget/CreateBudgetModal.tsx:122-134 | an input containing "ata" is decided by a rule no later than "ata" |
| AutoCategorizer.EarlyRulesAreFood | components/budget/CreateBudgetModal.tsx:120-122 | every rule up to "ata" maps to Food |
| AutoCategorizer.DataIsShadowedByAta | components/budget/CreateBudgetModal.tsx:122-138 | an input containing "data" that matches no category is filed under Food, never Utilities |
| AutoCategorizer.DataRuleNeverDecides | components/budget/CreateBudgetModal.tsx:128-134 | the "data" rule is never the deciding rule |
| AutoCategorizer.SnacksRunExample | components/budget/CreateBudgetModal.tsx:115-116 | "snacks run" with the category Snacks guesses Snacks |
| BulkParser.ScanMatchSound | components/budget/CreateBudgetModal.tsx:147 | what the right-to-left scan reports is a match of the line pattern |
| BulkParser.ScanMatchLeftmost | components/budget/CreateBudgetModal.tsx:147 | whenever the pattern matches, the scan finds the match the lazy name group yields: the same amount group and trailing space, and the shortest name group |
| BulkParser.RemoveCommas | components/budget/CreateBudgetModal.tsx:155 | the result has no comma and is no longer than the input |
| BulkParser.RemoveCommasOfCommaFree | components/budget/CreateBudgetModal.tsx:155 | text without commas is left unchanged |
| BulkParser.RemoveCommasOfAmount | components/budget/CreateBudgetModal.tsx:155 | an amount run without its commas is made of digits and dots only |
| BulkParser.ItemIdInjective | components/budget/CreateBudgetModal.tsx:152-160 | `item-a` and `item-b` are equal exactly when a = b |
| BulkParser.LinePartsNameTrimmed | components/budget/CreateBudgetModal.tsx:150-161 | the name read from a line is trimmed |
| BulkParser.LinePartsAmountShape | components/budget/CreateBudgetModal.tsx:155-163 | the amount read from a line is "0" or made of digits and dots only |
| BulkParser.ScanOfNameAndAmount | components/budget/CreateBudgetModal.tsx:147 | in `name + " " + raw`, the pattern splits after the name and after the single space |
| BulkParser.LinePartsOfNameAndAmount | components/budget/CreateBudgetModal.tsx:147-156 | a trimmed name, one space and an amount run read back as that name and the run without its commas |
| BulkParser.LinePartsOfMatch | components/budget/CreateBudgetModal.tsx:147-156 | on a matching line, the name is the trimmed name group and the amount is the amount group without commas |
| BulkParser.LinePartsRoundTrip | components/budget/CreateBudgetModal.tsx:147-156 | writing a proposal as `name amount` and parsing it again gives the same name and amount |
| BulkParser.PepperExample | components/budget/CreateBudgetModal.tsx:147-156 | "Pepper 40,000" gives Pepper and 40000 |
| BulkParser.ThousandsExample | components/budget/CreateBudgetModal.tsx:155 | "40,000" loses its comma |
| BulkParser.DigitsInNameExample | components/budget/CreateBudgetModal.tsx:147-156 | "Item 2 Pack 500" gives the name "Item 2 Pack" and the amount 500 |
| BulkParser.NoSpaceNoMatch | components/budget/CreateBudgetModal.tsx:147-164 | a line with no white space after its first character does not match, and is proposed as its trimmed text with amount "0" |
| BulkParser.MatchStartsWithSpace | components/budget/CreateBudgetModal.tsx:147 | a match's name group is not empty and is followed by white space |
| BulkParser.OneLeadingSpaceExample | components/budget/CreateBudgetModal.tsx:147-164 | " 500" does not match and is proposed as "500" with amount "0" |
| BulkParser.TwoLeadingSpacesExample | components/budget/CreateBudgetModal.tsx:147-156 | "  500" matches with a blank name group, giving the name "" and the amount 500 |
| BulkParser.DropBlankIsFilter | components/budget/CreateBudgetModal.tsx:144 | the first-order blank-line filter is `filter(line => line.trim())` |
| BulkParser.NonBlankLinesSpec | components/budget/CreateBudgetModal.tsx:144 | no kept line is white space only or holds a newline |
| BulkParser.ParseLinesIds | components/budget/CreateBudgetModal.tsx:145-160 | one proposal per line, the t-th with id `item-t`, so no two ids are equal |
| BulkParser.ParseBulkTextShape | components/budget/CreateBudgetModal.tsx:143-165 | one proposal per non-blank line, in order, each the parse of its own line, with distinct ids |
| BulkParser.ParseBulkTextIdsDistinct | components/budget/CreateBudgetModal.tsx:143-165 | the proposals of a pasted text never share an id |
| BulkParser.ParseBulkTextKeepsLines | components/budget/CreateBudgetModal.tsx:144 | every line that is not white space only is kept |
| BulkParser.BlankTextProposesNothing | components/budget/CreateBudgetModal.tsx:144 | white space and newlines alone propose nothing |
| BulkParser.BlankPieces | components/budget/CreateBudgetModal.tsx:144 | each piece of a white-space text is white space |
| BudgetForm.SetField | components/budget/CreateBudgetModal.tsx:172 | the chosen field takes the value; the id and the other fields are kept |
| BudgetForm.UpdateItems | components/budget/CreateBudgetModal.tsx:170-174 | the proposals with the id get the value in that field only; the other proposals, the ids, the length and the order are unchanged |
| BudgetForm.UpdateItemsKeepsIdsDistinct | components/budget/CreateBudgetModal.tsx:170-174 | editing a field keeps the ids distinct |
| BudgetForm.RemoveItems | components/budget/CreateBudgetModal.tsx:176-178 | the result holds exactly the proposals with another id |
| BudgetForm.RemoveItemsIsSubsequence | components/budget/CreateBudgetModal.tsx:177 | removal keeps the relative order |
| BudgetForm.RemoveAbsentId | components/budget/CreateBudgetModal.tsx:177 | removing an id no proposal has changes nothing |
| BudgetForm.RemovePresentId | components/budget/CreateBudgetModal.tsx:177 | with distinct ids, removing the k-th proposal's id drops exactly that proposal |
| BudgetForm.RemoveItemsKeepsIdsDistinct | components/budget/CreateBudgetModal.tsx:177 | removal keeps the ids distinct |
| BudgetForm.MonthPart | components/budget/CreateBudgetModal.tsx:62-65 | `slice(0, 7)` is the prefix of at most seven characters, exactly seven when there are that many |
| BudgetForm.SaveRequestOf | components/budget/CreateBudgetModal.tsx:180-222 | nothing is written without a user, in single mode without category or limit, or in bulk mode with no proposals. Single mode writes one monthly row starting on the first of the chosen month, named after the category when the name is empty; it is an update only when editing a row with an id, otherwise an insert. Bulk mode inserts one row per proposal, in order, with the proposal's name and category, the parsed amount, the period "monthly" and the same month start `month-01` for every row |
| BudgetForm.CanSubmit | components/budget/CreateBudgetModal.tsx:412-415 | the button can be pressed only when it is rendered (single mode, or bulk mode on the preview) and never during a submission |
| BudgetForm.CanSubmitMatchesRequest | components/budget/CreateBudgetModal.tsx:412-415 | for a signed-in user and a rendered button, the button can be pressed exactly when submitting would write something, that is when the early returns at lines 188 and 214 are not taken; in bulk mode it cannot be pressed before the preview |
| BudgetForm.EditRoundTrip | components/budget/CreateBudgetModal.tsx:49-65 | opening a budget for editing and saving unchanged updates the same id with the same name, category, limit and month (together with lines 188-204 of the same file) |
| BudgetForm.DuplicateInserts | components/budget/CreateBudgetModal.tsx:188-211 | saving a duplicate inserts a new row with the same name, category and limit, never an update (together with lines 55-62 of the same file) |
| BudgetForm.BulkSubmitOfParsedText | components/budget/CreateBudgetModal.tsx:143-165 | submitting a freshly parsed text inserts one row per non-blank line, none with a negative limit (together with lines 214-222 of the same file) |
| BudgetForm.LineAmountUnsigned | components/budget/CreateBudgetModal.tsx:155 | the amount read from any line, once parsed as at line 219, is NaN or a number that is not negative |
| BudgetForm.SeparatorOnlyAmountIsNaN | components/budget/CreateBudgetModal.tsx:147-155 | "name ," matches, proposes the amount "", and that parses to NaN at line 219 |
| BudgetForm.Preview | components/budget/CreateBudgetModal.tsx:143-165 | the proposals of a text, which never share an id |
| BudgetForm.BudgetDialog.constructor | components/budget/CreateBudgetModal.tsx:33-42 | the dialog's initial state: single mode, empty fields, the current month, no proposals, not previewing |
| BudgetForm.BudgetDialog.Open | components/budget/CreateBudgetModal.tsx:47-84 | edit and duplicate pre-fill name, category, rendered limit and month; an edit without a month takes the current month; a create resets every field; the mode is always single; the proposals keep distinct ids |
| BudgetForm.BudgetDialog.LoadCategories | components/budget/CreateBudgetModal.tsx:86-97 | the fetched categories replace the list; no data keeps it |
| BudgetForm.BudgetDialog.SetBulkText | components/budget/CreateBudgetModal.tsx:344 | the text field takes the typed text |
| BudgetForm.BudgetDialog.ParsePreview | components/budget/CreateBudgetModal.tsx:143-168 | the proposals become the parse of the text against the loaded categories, and the preview is shown |
| BudgetForm.BudgetDialog.BackToEdit | components/budget/CreateBudgetModal.tsx:364 | back to the text, keeping the proposals |
| BudgetForm.BudgetDialog.UpdateItem | components/budget/CreateBudgetModal.tsx:170-174 | the proposals become `UpdateItems` of the old ones, with their ids still distinct |
| BudgetForm.BudgetDialog.RemoveItem | components/budget/CreateBudgetModal.tsx:176-178 | the proposals become `RemoveItems` of the old ones, no more of them than before |
| BudgetForm.BudgetDialog.Request | components/budget/CreateBudgetModal.tsx:180-222 | the request submit sends from the dialog's fields: for a signed-in user it exists exactly when the rendered submit button can be pressed; nothing without a user; in bulk mode one row per proposal on screen |
| BudgetTable.CategoriesOf | components/budget/BudgetTable.tsx:37 | `budgets.map(b => b.category)` |
| BudgetTable.CategoryOptions | components/budget/BudgetTable.tsx:37 | the options start with "All" |
| BudgetTable.CategoryOptionsSpec | components/budget/BudgetTable.tsx:37 | after "All", each budget category appears exactly once, strictly ascending, and nothing else does |
| BudgetTable.FilterBudgetsSpec | components/budget/BudgetTable.tsx:40-44 | the filtered rows keep their order, and a row is kept exactly when its name contains the search term ignoring case and the filter is "All" or its category |
| BudgetTable.NoFilterKeepsAll | components/budget/BudgetTable.tsx:40-44 | an empty search with "All" keeps every budget |
| BudgetTable.Divide | components/budget/BudgetTable.tsx:54-55 | JavaScript division: NaN exactly for 0/0, finite exactly when the divisor is not 0 |
| BudgetTable.SortBudgetsPermutation | components/budget/BudgetTable.tsx:46-61 | the sort is a permutation of the filtered rows |
| BudgetTable.NoSortKeepsOrder | components/budget/BudgetTable.tsx:46-47 | with no sort chosen the order is unchanged |
| BudgetTable.ComparatorIsWeakOrder | components/budget/BudgetTable.tsx:49-60 | the comparator of a chosen column, in either direction, is a strict weak order on the rows whose value is not NaN |
| BudgetTable.SortBudgetsSorted | components/budget/BudgetTable.tsx:46-61 | when no row's value is NaN, no row is placed after one it comes before: non-decreasing for asc, non-increasing for desc |
| BudgetTable.ComparableIff | components/budget/BudgetTable.tsx:53-56 | only the progress column yields NaN, for nothing spent against a zero limit |
| BudgetTable.NextSort | components/budget/BudgetTable.tsx:70-76 | the new sort is on the clicked column, descending exactly when that column was ascending |
| BudgetTable.NextSortToggles | components/budget/BudgetTable.tsx:70-76 | clicking one header repeatedly alternates asc and desc |
| BudgetTable.TotalPagesIsCeiling | components/budget/BudgetTable.tsx:64 | `Math.ceil(n / k)` is the least page count holding n rows |
| BudgetTable.PageSize | components/budget/BudgetTable.tsx:65-68 | a page holds at most k rows |
| BudgetTable.PagesUpToIsPrefix | components/budget/BudgetTable.tsx:65-68 | the first m pages together are the first min(m*k, n) rows |
| BudgetTable.AllPagesShowEverything | components/budget/BudgetTable.tsx:64-68 | pages 1 to totalPages concatenate to the whole sorted list |
| BudgetTable.ShowingCountsPage | components/budget/BudgetTable.tsx:264 | on pages 1 to totalPages, "Showing X to Y" counts exactly the page's rows |
| BudgetTable.OverBudgetIff | components/budget/BudgetTable.tsx:166-167 | with a positive limit a row is over budget exactly when spent exceeds the limit |
| BudgetTable.ZeroLimitRow | components/budget/BudgetTable.tsx:166-167 | with a zero limit a row is over exactly when anything was spent |
| BudgetTable.BarWidthAtMost100 | components/budget/BudgetTable.tsx:191 | the bar width is never above 100, and NaN only for a NaN progress |
| BudgetTable.PageRowsMatch | components/budget/BudgetTable.tsx:40-68 | any page of the pipeline holds at most k rows, each a fetched budget passing both filters |
| BudgetTable.PageRowsIn | components/budget/BudgetTable.tsx:65-68 | a page's rows come from the list it pages |
| BudgetTable.BudgetTableView.constructor | components/budget/BudgetTable.tsx:24-29 | page 1, empty search, "All", unsorted, 10 per page |
| BudgetTable.BudgetTableView.Visible | components/budget/BudgetTable.tsx:40-68 | the rows on screen number at most the page size and all pass the filters |
| BudgetTable.BudgetTableView.SetSearchTerm | components/budget/BudgetTable.tsx:25-34 | a changed search term resets the page to 1; nothing else changes |
| BudgetTable.BudgetTableView.SetFilterCategory | components/budget/BudgetTable.tsx:26-34 | a changed category filter resets the page to 1; nothing else changes |
| BudgetTable.BudgetTableView.SetItemsPerPage | components/budget/BudgetTable.tsx:113-121 | a changed page size (5, 10, 20 or 50) resets the page to 1; nothing else changes (together with lines 29, 32-34 of the same file) |
| BudgetTable.BudgetTableView.HandleSort | components/budget/BudgetTable.tsx:70-76 | the sort becomes `NextSort` of the old one; the page is kept |
| BudgetTable.BudgetTableView.PreviousPage | components/budget/BudgetTable.tsx:268 | one page back, never below 1 |
| BudgetTable.BudgetTableView.NextPage | components/budget/BudgetTable.tsx:261-275 | one page on, never past totalPages |
| BudgetPage.LastByNameSpec | app/budget/page.tsx:52-53 | the map entry for a name is the last category with that name, and there is none when no category has it |
| BudgetPage.BuildCategoryMap | app/budget/page.tsx:52-53 | the `forEach` of `Map.set` gives each name its last category and holds no other name |
| BudgetPage.SpentWithoutMatches | app/budget/page.tsx:71-77 | spent is 0 when no transaction counts toward the budget |
| BudgetPage.SpentWithinCategory | app/budget/page.tsx:71-77 | with non-negative amounts, spent lies between 0 and all expenses in the budget's category |
| BudgetPage.ColorsDistinguishGroups | app/budget/page.tsx:79-85 | each group has its own colour, and none is the zinc of an unknown category |
| BudgetPage.WithStats | app/budget/page.tsx:70-92 | one row per budget, in order, each carrying its budget unchanged, the spending `Spent` counts against it and the colour of the group of the last category with its name (zinc when there is none) |
| BudgetPage.FetchStats | app/budget/page.tsx:52-92 | the loop over the budgets, looking categories up in the built map, gives `WithStats` |
| MonthlyPlanner.GroupOf | components/budget/MonthlyPlanner.tsx:103-104 | the group of the first category with the budget's exact name, and none exactly when no category has that name |
| MonthlyPlanner.GroupTotalsAddUp | components/budget/MonthlyPlanner.tsx:100-112 | needs + wants + savings is the sum of the limits of the budgets with a known category |
| MonthlyPlanner.GroupTotalOfNone | components/budget/MonthlyPlanner.tsx:100-107 | a group with no budget in it totals 0 |
| MonthlyPlanner.FirstAndLastCategoryDisagree | components/budget/MonthlyPlanner.tsx:103 | with two same-named categories, the planner counts a budget under the first one's group while the budget page colours it by the last |
| MonthlyPlanner.UnreadableIncomeIsZero | components/budget/MonthlyPlanner.tsx:71-109 | an unreadable income counts as 0 |
| MonthlyPlanner.SaveIncome | components/budget/MonthlyPlanner.tsx:67-89 | nothing without a user; otherwise an update of the loaded plan, or an insert dated `month-01`, with the income value |
| MonthlyPlanner.CardSpec | components/budget/MonthlyPlanner.tsx:118-150 | with no positive target the percentage is 0 and any positive amount is over; with one, over 100% exactly when over; the remaining percentage lies in [0, 100]; the bar is at most 100 |
| Progress.PercentSpec | components/budget/BudgetSummary.tsx:49 | 0 without a positive whole; otherwise above 100 exactly when part > whole and non-negative exactly when part is; the bar is at most 100 |
| ProjectsPage.ProjectTotalWithoutExpenses | app/projects/page.tsx:57 | a project with no expenses totals 0 |
| ProjectsPage.ProjectTotalAppend | app/projects/page.tsx:51-52 | an expense adds its amount to its own project's total and to no other |
| ProjectsPage.AddExpenseStep | app/projects/page.tsx:51-52 | one loop step keeps the map equal to the per-project sums |
| ProjectsPage.TotalsByProject | app/projects/page.tsx:50-53 | the map has an entry exactly for each project id with an expense, holding that project's sum |
| ProjectsPage.WithTotals | app/projects/page.tsx:55-58 | one project per project, in order, with only the total changed, and that total is the sum of the project's own expenses (0 when it has none) |
| ProjectsPage.ProcessProjects | app/projects/page.tsx:55-58 | the map lookup with fallback 0 gives each project its own sum |
| ProjectsPage.TotalSpentAllStep | app/projects/page.tsx:84 | the header total is the first project's sum plus the rest's |
| ProjectsPage.ListedExpensesStep | app/projects/page.tsx:50-58 | with distinct ids, the expenses of listed projects split into the first project's and the others' |
| ProjectsPage.TotalSpentAllIsListedExpenses | app/projects/page.tsx:50-84 | with distinct project ids, the header total is the sum of the expenses of listed projects |
| ProjectsPage.UnlistedExpenseIgnored | app/projects/page.tsx:84 | an expense of an unlisted project leaves the header total unchanged |
| AccountsPage.IconAndColorAgree | app/accounts/page.tsx:60-74 | icon and colour pick out the same type (savings, investment, other), and letter case changes neither |
| AccountsPage.MixedCaseTypes | app/accounts/page.tsx:60-66 | "Investment" and "INVESTMENT" get TrendingUp, "Savings" Building2, "Current" Wallet |
| AccountsPage.AvailablePlusInvestment | app/accounts/page.tsx:76-82 | available plus investment is the sum of all balances |
| AccountsPage.NoInvestmentsAllAvailable | app/accounts/page.tsx:76-82 | without investment accounts, investment is 0 and everything is available |
| JsNumber.Abs | components/dashboard/AccountSummary.tsx:53 | `Math.abs` is non-negative and is x or -x |
| AccountSummary.MonthlyExpensesNonNegative | components/dashboard/AccountSummary.tsx:51-53 | the expense figure is never negative |
| AccountSummary.OtherKindsIgnored | components/dashboard/AccountSummary.tsx:47-53 | a row of another type changes neither income nor expenses |
| AccountSummary.AddingRows | components/dashboard/AccountSummary.tsx:47-53 | an expense adds its magnitude to the expenses, and an income its amount to the income |
| AccountSummary.TotalBalanceSpec | components/dashboard/AccountSummary.tsx:31 | no accounts, or none readable, total 0; each account adds its balance |
| BudgetSummary.CardIsOverIff | components/budget/BudgetSummary.tsx:49-73 | a card without a positive limit shows 0% and is never over; with one it is over exactly when spent exceeds the limit; the bar is at most 100 |
| BudgetSummary.TotalProgressSpec | components/budget/BudgetSummary.tsx:15-40 | the overall card: 0% without a positive total limit, otherwise over exactly when total spent exceeds total limit; the bar is at most 100 |
| BudgetSummary.WithinLimitsOverall | components/budget/BudgetSummary.tsx:15-16 | when no category overspent, neither did the total |
| BudgetSummary.NoCardOverNoTotalOver | components/budget/BudgetSummary.tsx:15-50 | with positive limits and no card over, the total card is not over |
| TransactionsPage.FilterTransactionsSpec | app/transactions/page.tsx:59-62 | the listed rows keep their order, and a row is listed exactly when its description or category contains the term ignoring case |
| TransactionsPage.EmptySearchNeedsAField | app/transactions/page.tsx:59-62 | with an empty search, a row is listed exactly when it has a description or a category |
| TransactionsPage.SearchIgnoresTermCase | app/transactions/page.tsx:59-62 | the letter case of the term does not change the result |
| TransactionsPage.AmountDisplay | app/transactions/page.tsx:158 | "-" exactly for expenses, a non-negative magnitude, and for non-negative amounts the shown value is the amount for income and its negation for expenses |
| TransactionsPage.StatusLabel | app/transactions/page.tsx:151 | the label is never empty, and is the stored status when there is one |
| TransactionsPage.MissingStatusLooksPending | app/transactions/page.tsx:149-151 | a row with no status reads "completed" but is drawn yellow |
| TransactionsPage.StatusColorMatchesLabel | app/transactions/page.tsx:149-151 | the corrected badge is green exactly when it reads "completed", and agrees with the page whenever a status is stored |
| ReceiptUploader.SanitizeSpec | components/transactions/ReceiptUploader.tsx:25 | the sanitised name holds only ASCII letters, digits and dots, keeps every such character, and is a subsequence of the name |
| ReceiptUploader.SanitizeIdempotent | components/transactions/ReceiptUploader.tsx:25 | sanitising twice is sanitising once |
| ReceiptUploader.SanitizeKeepsSafeNames | components/transactions/ReceiptUploader.tsx:25 | a safe name is kept as it is |
| ReceiptUploader.UploadPath | components/transactions/ReceiptUploader.tsx:19-25 | nothing is uploaded exactly when there is no file or no user |
| ReceiptUploader.StoragePathInUserFolder | components/transactions/ReceiptUploader.tsx:25 | the path is the user id, a slash, and then no further slash |
| ReceiptUploader.StoragePathsDiffer | components/transactions/ReceiptUploader.tsx:25 | uploads at different times go to different paths |
| ReviewReceipt.ApplyEdit | components/transactions/ReviewReceiptModal.tsx:86-91 | one field changes; the others and the budget link are kept |
| ReviewReceipt.FindBudget | components/transactions/ReviewReceiptModal.tsx:94 | the first budget with the id, or none when no budget has it |
| ReviewReceipt.SelectBudget | components/transactions/ReviewReceiptModal.tsx:93-110 | a known budget sets the link, category and name; an unknown id only clears the link |
| ReviewReceipt.EmptyChoiceUnmaps | components/transactions/ReviewReceiptModal.tsx:93-110 | the empty "Map to Budget..." option only unmaps the line (together with line 203 of the same file) |
| ReviewReceipt.RemoveAt | components/transactions/ReviewReceiptModal.tsx:113 | the item at the index goes and the others keep their order; an index outside the list changes nothing |
| ReviewReceipt.RemoveAtTotal | components/transactions/ReviewReceiptModal.tsx:113-150 | deleting a line takes exactly its amount off the total |
| ReviewReceipt.RemoveAtMultiset | components/transactions/ReviewReceiptModal.tsx:113 | deleting removes that item once and keeps every other |
| ReviewReceipt.ReplaceTotal | components/transactions/ReviewReceiptModal.tsx:86-91 | replacing a line changes the total by the difference of the amounts (together with line 150 of the same file) |
| ReviewReceipt.ExpenseRows | components/transactions/ReviewReceiptModal.tsx:123-131 | one expense per item, in order, described `store - name`, on the shared date with the receipt URL |
| ReviewReceipt.SaveRequest | components/transactions/ReviewReceiptModal.tsx:117-131 | nothing is saved exactly when there is no user; otherwise the insert is `ExpenseRows`, one expense per item in order |
| ReviewReceipt.SaveMatchesTotal | components/transactions/ReviewReceiptModal.tsx:123-131 | an enabled save inserts at least one row, and the inserted amounts add up to the total shown (together with lines 150, 264 of the same file) |
| ReviewReceipt.ExpenseRowsSum | components/transactions/ReviewReceiptModal.tsx:123-150 | the inserted amounts, NaN as 0, add up to the total |
| ReviewReceipt.ReceiptReview.constructor | components/transactions/ReviewReceiptModal.tsx:32-37 | empty items, store, date and lookups |
| ReviewReceipt.ReceiptReview.Load | components/transactions/ReviewReceiptModal.tsx:42-48 | a scan replaces the items and store; a missing date becomes today |
| ReviewReceipt.ReceiptReview.LoadLookups | components/transactions/ReviewReceiptModal.tsx:60-76 | fetched past categories become the suggestions, sorted and distinct, and fetched budgets the month's budgets; a fetch with no data keeps the old list |
| ReviewReceipt.ReceiptReview.ChangeItem | components/transactions/ReviewReceiptModal.tsx:86-91 | only the line at the index changes, by `ApplyEdit` |
| ReviewReceipt.ReceiptReview.SelectBudgetFor | components/transactions/ReviewReceiptModal.tsx:93-110 | only the line at the index changes, by `SelectBudget` |
| ReviewReceipt.ReceiptReview.DeleteItem | components/transactions/ReviewReceiptModal.tsx:112-115 | the items become `RemoveAt` of the old ones |
| ReviewReceipt.ReceiptReview.Request | components/transactions/ReviewReceiptModal.tsx:117-131 | what "Save" sends from the dialog's fields: nothing exactly without a user; otherwise one expense per line, with amounts adding up to the total the dialog shows |
| ExpenseEntry.MatchingOptionsSpec | components/transactions/AddTransactionModal.tsx:254-255 | the dropdown lists exactly the options whose name contains the typed text ignoring case, in order (the same filter as components/projects/AddProjectExpenseModal.tsx:164-165) |
| ExpenseEntry.NothingTypedListsAll | components/transactions/AddTransactionModal.tsx:254-269 | with nothing typed, every option is listed and no hint is shown |
| ExpenseEntry.ExactNameListedWithoutHint | components/transactions/AddTransactionModal.tsx:254-269 | typing an existing name in any case lists it and shows no hint |
| ExpenseEntry.NewHintIff | components/transactions/AddTransactionModal.tsx:269 | the "New category" hint shows exactly when the text is non-empty and no option equals it ignoring case (likewise components/projects/AddProjectExpenseModal.tsx:178) |
| ExpenseEntry.FindAccount | components/transactions/AddTransactionModal.tsx:117 | a found index holds the id, and nothing is found exactly when no account has it |
| ExpenseEntry.Debit | components/transactions/AddTransactionModal.tsx:138 | the new balance plus the amount is the old balance; a NaN amount gives NaN |
| ExpenseEntry.DebitWrites | components/transactions/AddTransactionModal.tsx:122-139 | the insert comes first; the debited balance is written second, and only after a successful insert |
| ExpenseEntry.BalanceAfterInsert | components/transactions/AddTransactionModal.tsx:122-139 | any balance write follows the insert and holds the old balance minus the amount |
| AddTransaction.KeywordCategorySpec | components/transactions/AddTransactionModal.tsx:84-95 | the suggestion is never empty, and is "Uncategorized" exactly when no key occurs in the lower-cased description |
| AddTransaction.FirstKeywordWins | components/transactions/AddTransactionModal.tsx:93-95 | the earliest key present decides |
| AddTransaction.GroceryIsFood | components/transactions/AddTransactionModal.tsx:85-94 | a description containing "grocery" is Food, whatever else it contains |
| AddTransaction.SubmitOutcome | components/transactions/AddTransactionModal.tsx:111-139 | nothing happens exactly when a field, the user or the account is missing; an error is raised before any write exactly when the account is not in the list |
| AddTransaction.SubmitWrites | components/transactions/AddTransactionModal.tsx:116-139 | a writing submit inserts one completed expense of the parsed amount, then, only on success, sets the balance to the old balance minus that amount |
| AddTransaction.AddTransactionForm.constructor | components/transactions/AddTransactionModal.tsx:17-28 | empty fields, today's date, empty lists |
| AddTransaction.AddTransactionForm.Open | components/transactions/AddTransactionModal.tsx:32-75 | with a user: the date goes back to today, each fetched list replaces the old one while a fetch with no data keeps it, and the first fetched account is selected; without a user nothing changes |
| AddTransaction.AddTransactionForm.AutoCategorize | components/transactions/AddTransactionModal.tsx:79-98 | an empty description changes nothing; otherwise the category becomes the keyword suggestion, never empty |
| AddTransaction.AddTransactionForm.SelectBudget | components/transactions/AddTransactionModal.tsx:100-109 | the selection is set; a known budget copies its category and name, and an unknown id changes nothing else |
| AddTransaction.AddTransactionForm.Dropdown | components/transactions/AddTransactionModal.tsx:254-255 | the listed categories are exactly those whose name contains the typed text ignoring case |
| AddTransaction.AddTransactionForm.Submit | components/transactions/AddTransactionModal.tsx:111-150 | the writes of `SubmitOutcome`; after a successful insert, amount, description, category and budget are cleared, otherwise all are kept |
| ProjectExpense.SubmitOutcome | components/projects/AddProjectExpenseModal.tsx:61-88 | nothing happens exactly when a field, the user or the account is missing; an error is raised before any write exactly when the account is not in the list |
| ProjectExpense.SubmitWrites | components/projects/AddProjectExpenseModal.tsx:66-88 | a writing submit inserts the expense for the project, then, only on success, debits the first account with the id by the parsed amount |
| ProjectExpense.ProjectExpenseForm.constructor | components/projects/AddProjectExpenseModal.tsx:16-24 | empty fields, today's date, empty lists |
| ProjectExpense.ProjectExpenseForm.Open | components/projects/AddProjectExpenseModal.tsx:28-57 | with a user, fetched past categories become the suggestions, strictly sorted and holding exactly those values, and fetched accounts replace the list with the first selected; a fetch with no data keeps the old list |
| ProjectExpense.ProjectExpenseForm.Dropdown | components/projects/AddProjectExpenseModal.tsx:164-165 | the listed categories are exactly those containing the typed text ignoring case |
| ProjectExpense.ProjectExpenseForm.Submit | components/projects/AddProjectExpenseModal.tsx:61-100 | the writes of `SubmitOutcome`; after a successful insert, amount, description and category are cleared and the date is back to today |
| CategoryManager.SubmitRequest | components/budget/CategoryManager.tsx:48-69 | nothing exactly without a user or with a white-space-only name; otherwise the name as typed and the group, as an update of the edited row exactly when one is being edited, else an insert |
| CategoryManager.EditRoundTrip | components/budget/CategoryManager.tsx:54-106 | editing a category and saving unchanged writes the same name and group to the same row |
| CategoryManager.CategoryForm.constructor | components/budget/CategoryManager.tsx:19-22 | an empty name, "needs", no edit |
| CategoryManager.CategoryForm.StartEdit | components/budget/CategoryManager.tsx:102-106 | the form takes the category's name, group and id |
| CategoryManager.CategoryForm.CancelEdit | components/budget/CategoryManager.tsx:108-112 | back to the empty form |
| CategoryManager.CategoryForm.Submit | components/budget/CategoryManager.tsx:48-82 | the request of `SubmitRequest`; a successful write resets the form, otherwise it is kept |
| AddAccount.Capitalize | components/accounts/AddAccountModal.tsx:38 | the same length, the first character upper-cased and not a lower-case letter, and the rest unchanged |
| AddAccount.LowerCapitalize | components/accounts/AddAccountModal.tsx:38-59 | lower-casing undoes capitalising, so a stored type without capitals comes back unchanged |
| AddAccount.CapitalizeLower | components/accounts/AddAccountModal.tsx:38-59 | a capitalised word is restored from its lower-case form |
| AddAccount.StoredTypesSelectTheirOption | components/accounts/AddAccountModal.tsx:38 | each of Savings, Current and Investment (the types of line 22 and the options of line 122), stored lower case, capitalises back to its option |
| AddAccount.SubmitRequest | components/accounts/AddAccountModal.tsx:51-74 | nothing exactly when name, type, balance or user is missing; an update exactly when editing a row with an id; the type is sent in lower case |
| AddAccount.AccountDialog.constructor | components/accounts/AddAccountModal.tsx:25-27 | no name, the first type, no balance |
| AddAccount.AccountDialog.Open | components/accounts/AddAccountModal.tsx:33-47 | editing pre-fills the name, the capitalised type and the rendered balance; anything else resets |
| AddAccount.AccountDialog.Request | components/accounts/AddAccountModal.tsx:51-61 | the form's write, with the typed name and the lower-cased type |
| AddAccount.EditRoundTrip | components/accounts/AddAccountModal.tsx:35-68 | opening an account for editing and saving unchanged writes its name and stored type back to the same row |
| AddAccount.ResetFormIsNotSaved | components/accounts/AddAccountModal.tsx:42-52 | a freshly reset form saves nothing |
| Strings.Trim | components/budget/CreateBudgetModal.tsx:150 | a trimmed string neither starts nor ends with white space |
| Strings.TrimStartSpec | components/budget/CreateBudgetModal.tsx:150 | `trimStart` drops a white-space prefix and keeps the rest |
| Strings.TrimEndSpec | components/budget/CreateBudgetModal.tsx:150 | `trimEnd` drops a white-space suffix and keeps the rest |
| Strings.TrimEmptyIff | components/budget/CategoryManager.tsx:50 | `trim()` is empty exactly for white-space-only text |
| Strings.SplitLines | components/budget/CreateBudgetModal.tsx:144 | at least one piece, none holding a newline |
| Strings.JoinSplitLines | components/budget/CreateBudgetModal.tsx:144 | joining the pieces with newlines gives the text back |
| Strings.SortedUnique | components/transactions/ReviewReceiptModal.tsx:61 | strictly ascending, holding exactly the input's values |
| Strings.StrictlySortedUnique | components/transactions/ReviewReceiptModal.tsx:61 | only one strictly sorted list holds a given set of values |
| JsNumber.ParseFloatOfNatToString | components/budget/CreateBudgetModal.tsx:53 | `parseFloat` (line 194) of a limit rendered by `toString()` gives back that non-negative integer |
| JsNumber.ParseFloatUnsigned | components/budget/CreateBudgetModal.tsx:219 | digits and dots never parse to a negative number |
| JsNumber.ParseFloatOfEmpty | components/budget/MonthlyPlanner.tsx:71 | the empty string is NaN, and `parseFloat("") \|\| 0` is 0 |

## Findings

| source | as written | input that shows it | evidently intended | confidence | as-written member | corrected member |
|---|---|---|---|---|---|---|
| app/transactions/page.tsx:149-151 | the badge colour tests the stored `status === "completed"`, while the label shows `status \|\| 'completed'` | a transaction with no status (or an empty one): the label reads "completed" and the badge is yellow, the colour of a pending one | the colour follows the label, so a row shown as completed is green | not executed | TransactionsPage.MissingStatusLooksPending | TransactionsPage.StatusColorMatchesLabel |

## Left out

- Database, storage, realtime and authentication calls are not modelled. A handler returns the write it would send. Success or failure of a write is a parameter. Error alerts, `console` output and `router.refresh()` are left out.
- The receipt scanning actions (`app/actions/scan-receipt.ts`, `lib/gemini.ts`), the login and settings pages, and the purely presentational components are not part of this model.
- Dates are opaque strings:
  - `new Date().toISOString()` slices are parameters (`today`, `currentMonth`);
  - month ends are left out;
  - `new Date(month + "-01").toISOString()` is modelled as the string `month-01`;
  - the project expense's `new Date(date).toISOString()` is modelled as the date string unchanged;
  - `Date.now()` is a natural-number parameter.
- Floating-point arithmetic is modelled as exact `real` arithmetic:
  - rounding, `toLocaleString`, `toFixed` and `Math.round` of the displayed percentages are left out;
  - so are infinities, except the one place a division by zero is visible (the budget table's progress column, `BudgetTable.Divide`);
  - signed zero is left out.
- The 0.5/0.3/0.2 targets of the planner are not computed. `MonthlyPlanner.CardSpec` is stated for any target.
- JsNumber.ParseFloat: exponents, "Infinity", hexadecimal and other `parseFloat` forms are not modelled. It reads optional white space, a sign, digits and an optional fraction. NaN is `None`.
- `toLowerCase` and `toUpperCase` are modelled on ASCII letters only (`Strings.Lower`, and `UpperChar` in `AddAccount.Capitalize`). JavaScript also maps other letters, and some mappings change the length ("\u00df" upper-cases to "SS"). Strings are sequences of characters, not UTF-16 code units, so JavaScript's string `<` is compared character by character.
- BudgetForm.BudgetDialog.Open: a budget limit is pre-filled with `toString()` only for whole-number limits (`amountLimit: nat`). A fractional limit's rendering is not modelled.
- AddAccount.AccountDialog.Open: the balance's `toString()` is a parameter (`balanceText`), not computed.
- MonthlyPlanner: loading the plan and rendering the expected income as text are not modelled.
- BudgetTable.SortBudgetsSorted: sortedness is proved only when no row's progress is NaN (nothing spent against a zero limit). JavaScript's sort with such rows depends on the engine. For those rows the model keeps only the permutation property.
- `x || 0` fallbacks are modelled for NaN and for missing values. `Number(item.amount)` in the receipt total is modelled on an optional number, not on arbitrary text.
- `handleDelete` of the category manager and the project deletions are single database calls. Plain setters have no logic and are left out. These are the modal open and close flags, the dropdown toggle, `isSubmitting` and `isCategorizing`. They also include the text-field setters: `setName`, `setCategory`, `setLimit` and `setMonth` of the budget dialog; `setStoreName` and `setDate` of the receipt review; and `setAmount`, `setDescription`, `setCategory` and `setNewCategoryName` of the other forms. Each of these only assigns a field. The same holds for the budget dialog's switch between single and bulk input.
- React scheduling is not modelled: effects run when their dependencies change, and awaited requests may interleave. The budget table's page reset is folded into the three setters that change the effect's dependencies. The one-second delay before auto-categorising is left out.
- Null categories from the database (`categoryData` missing) are modelled as an empty list on the budget and planner pages. In the dialogs, a fetch that returns no data keeps the previous list, as the components do (`LoadCategories`, `AddTransactionForm.Open`, `ProjectExpenseForm.Open`, `ReceiptReview.LoadLookups`). A row with a null category is not modelled. Such a null would enter the `Set` of past categories behind the suggestions of `ReceiptReview.LoadLookups` and `ProjectExpenseForm.Open`, where the model takes strings only.
