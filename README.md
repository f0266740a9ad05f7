# BudgetTracker core, modelled in Dafny

BudgetTracker is a personal-finance web application. A Spring backend stores users, transactions, budgets, savings goals and forum posts. A React frontend shows them and does most of the arithmetic on the client. This project models the logic of both halves and proves its properties. Server responses, the clock and JavaScript's number parsing are inputs of the model.

The modules, one per source file unless noted:

- **Forecast** (`ExpensePredictionModel`, `ExpensePredictionService`): the trailing mean of the last three monthly expense totals, and the pipeline that filters, groups, sorts and totals a user's expenses. `Calendar` holds the dates and their ISO parsing.
- **Budget and savings arithmetic** (`BudgetPage`, `AdminNav`, `SavingsPage`, `TransactionPage`): spent per budget window, the progress bar and its colour, category icons, the 70 % / 100 % alerts, totals and completed goals, the top-up request, the wallet summary, and each page's form state.
- **Admin views** (`TransactionAdminPage`, `AdminDashboard`, `UserList`): the owner filter, pages of ten, local removal and replacement, active users, and the month and category charts. `Tally` models the JavaScript object these charts fill in a `forEach`: an association list in key-insertion order.
- **User views** (`UserDashboard`, `EditProfile`): the calendar grid, the period ranges with JavaScript's month normalisation, and the full-name split and join.
- **Access** (`Api`, `SecurityConfig`, `AuthController`):
  - the token interceptors and the endpoint table;
  - the ordered path-authorisation rules;
  - signup validation, the `Bearer ` check and the profile merge.
- **Owner-checked stores** (`BudgetController`, `SavingsController`, `ForumPostsController`, `TransactionService`): each keeps its repository as a class holding a sequence of rows (id, owner, columns) and the next generated id. `OwnedRows` holds their shared operations.
- **Shared helpers**: `Wrappers` (Option, Result), `Text` (ASCII lower case, JavaScript string order, decimal text), `Lists` (filter, removal and replacement by id), `Sorting` (the comparator sort by a descending string key), `ClientRecords` (the JSON records and the percentage), `Entities` (the backend records).

Where the source changes state (React `useState` setters, entity setters followed by `save`), the model is a class whose methods state the whole new state. Loops the source has are methods with invariants, proved against a specification function: the forecast loop, the notification pass of the navigation bar, the `forEach` fills of the dashboard and the calendar grid. Everything else is functions and lemmas.

Amounts are exact `real`s, so every sum, average and percentage is exact. JavaScript's `Infinity`/`NaN` from a zero budget is modelled where a comparison consumes it. A zero budget makes `getProgressColor` yellow or red, and makes the alert an error exactly when something is spent. Integer widths (`Long` ids) are unbounded.

Three behaviours of the code are worth stating plainly:

- **401 handling.** A 401 answer clears the stored token and returns to `/` only when the current path is not already `/` (`Api.Session.InterceptResponseError`).
- **Failed fetches.** A failed fetch empties the list on the transaction and savings pages. On the budget page, a failed `fetchBudgets` keeps the cards already shown (`BudgetPage.Page.Load`).
- **Transaction types.** The type is free text, and a type other than `income` or `expense` is kept. Each view reads it in its own way:
  - the wallet summary counts only those two exact spellings;
  - the budget page accepts any case of `expense`;
  - the admin chart counts every type other than `income` as an expense.

Some behaviours of the code are surprising but modelled as written:

- `getActiveUsers` never reports fewer than 1.
- A one-word full name comes back from the profile form with a trailing space (`EditProfile.OneWordNameGainsSpace`).
- `updateTransaction` answers a missing id with a plain message rather than an error.

## Model

| member | source | states |
|---|---|---|
| ExpensePredictionModel.WindowSize | backend/src/main/java/com/infosys/backend/entity/ExpensePredictionModel.java:11-12 | the window is `min(3, n)`: at most 3, at most n, and at least 1 for a non-empty list |
| ExpensePredictionModel.Window | backend/src/main/java/com/infosys/backend/entity/ExpensePredictionModel.java:11-15 | the window is exactly the last `WindowSize(n)` monthly totals |
| ExpensePredictionModel.Forecast | backend/src/main/java/com/infosys/backend/entity/ExpensePredictionModel.java:6-19 | 0 for no months, otherwise the mean of the window: the window's size times the forecast is its sum |
| ExpensePredictionModel.PredictNextMonthExpense | backend/src/main/java/com/infosys/backend/entity/ExpensePredictionModel.java:6-19 | a null list gives 0; otherwise the loop's result is the mean of the last `min(3, n)` totals (0 for an empty list) |
| ExpensePredictionModel.ForecastIgnoresOlder | backend/src/main/java/com/infosys/backend/entity/ExpensePredictionModel.java:14-15 | months before the last three never affect the forecast |
| ExpensePredictionModel.ForecastWithinWindow | backend/src/main/java/com/infosys/backend/entity/ExpensePredictionModel.java:14-18 | the forecast lies between any lower and upper bound of the window's totals |
| ExpensePredictionModel.ForecastOfConstantWindow | backend/src/main/java/com/infosys/backend/entity/ExpensePredictionModel.java:14-18 | a window whose totals all equal c forecasts c |
| ExpensePredictionModel.SumBounds | backend/src/main/java/com/infosys/backend/entity/ExpensePredictionModel.java:14-17 | a sum of n values within [lo, hi] lies within [n·lo, n·hi] |
| ExpensePredictionService.ExpensesMembers | backend/src/main/java/com/infosys/backend/service/ExpensePredictionService.java:29 | the filter keeps exactly the transactions whose type is `expense` ignoring case |
| ExpensePredictionService.GroupTotalsKeys | backend/src/main/java/com/infosys/backend/service/ExpensePredictionService.java:30-33 | there is one total per month that has at least one expense, and no other |
| ExpensePredictionService.GroupTotalsValue | backend/src/main/java/com/infosys/backend/service/ExpensePredictionService.java:32 | a month's total is the sum of the amounts of that month's expenses |
| ExpensePredictionService.SortedMonths | backend/src/main/java/com/infosys/backend/service/ExpensePredictionService.java:36-37 | the sorted key list holds every month exactly once, in strictly ascending order |
| ExpensePredictionService.TotalsFor | backend/src/main/java/com/infosys/backend/service/ExpensePredictionService.java:40-42 | the totals list has one entry per sorted month, that month's total |
| ExpensePredictionService.FirstUndated | backend/src/main/java/com/infosys/backend/service/ExpensePredictionService.java:31 | finds an expense whose date `LocalDate.parse` rejects exactly when there is one |
| ExpensePredictionService.MonthlyTotals | backend/src/main/java/com/infosys/backend/service/ExpensePredictionService.java:25-42 | fails exactly when some expense of the user has an unparsable date; otherwise gives the month-ordered totals |
| ExpensePredictionService.PredictNextMonthExpenses | backend/src/main/java/com/infosys/backend/service/ExpensePredictionService.java:22-45 | the result is the forecast of the user's monthly expense totals, or the parse failure |
| ExpensePredictionService.NonExpenseIrrelevant | backend/src/main/java/com/infosys/backend/service/ExpensePredictionService.java:25-29 | storing an income, or another user's transaction, leaves the prediction unchanged |
| ExpensePredictionService.SameExpensesIgnored | backend/src/main/java/com/infosys/backend/service/ExpensePredictionService.java:25-29 | such a transaction leaves the user's expense list unchanged |
| ExpensePredictionService.OrderedTotalsMeaning | backend/src/main/java/com/infosys/backend/service/ExpensePredictionService.java:30-44 | the totals handed to the model are those of the months with expenses, ascending, each the sum of its expenses; empty months are skipped, not counted as 0 |
| ExpensePredictionService.OrderedMonthsCover | backend/src/main/java/com/infosys/backend/service/ExpensePredictionService.java:30-37 | the sorted months are exactly the months of the expenses |
| ExpensePredictionService.OrderedTotalsMatch | backend/src/main/java/com/infosys/backend/service/ExpensePredictionService.java:36-42 | the i-th total is the sum of the amounts of the i-th sorted month |
| Calendar.ParseIsoDate | backend/src/main/java/com/infosys/backend/service/ExpensePredictionService.java:31 | a parsed date is valid with a four-digit year, and is the year, month and day written in the text; text of the unsigned `yyyy-mm-dd` form parses exactly when it names a real day |
| Calendar.ParseExample | backend/src/main/java/com/infosys/backend/service/ExpensePredictionService.java:31 | `2024-03-15` parses to 15 March 2024 |
| ExpensePredictionService.MonthKey | backend/src/main/java/com/infosys/backend/service/ExpensePredictionService.java:31 | a transaction has a month exactly when its date parses, and that month is the year and month written in the date |
| Calendar.DaysInMonth | budgettracker_frontend/src/userProfiles/UserDashboard.jsx:77 | months have 28 to 31 days, and 29 exactly for February of a leap year |
| BudgetPage.TypeMatchIsCaseInsensitive | budgettracker_frontend/src/userProfiles/Budget.jsx:95 | the type test is the case-insensitive comparison with `expense`; the extra upper-case test adds nothing |
| BudgetPage.SpentSnoc | budgettracker_frontend/src/userProfiles/Budget.jsx:93-103 | one more transaction raises spent by its amount exactly when its category, type and date window match, and otherwise leaves it |
| BudgetPage.Spent | budgettracker_frontend/src/userProfiles/Budget.jsx:87-105 | the total of the transactions that match the category, the type and the date window; 0 when none matches |
| BudgetPage.SpentNonNegative | budgettracker_frontend/src/userProfiles/Budget.jsx:103 | spent is at least 0 when no amount is negative |
| ClientRecords.TotalAmountAppend | budgettracker_frontend/src/userProfiles/Budget.jsx:103 | the running total of two lists is the sum of their totals |
| ClientRecords.TotalAmountNonNegative | budgettracker_frontend/src/userProfiles/Budget.jsx:103 | the total of non-negative amounts is not negative |
| ClientRecords.ProgressPercentage | budgettracker_frontend/src/userProfiles/Budget.jsx:165-167 | progress is clamped to 100, is otherwise `part / whole * 100`, reaches 100 exactly when part reaches a positive whole, and is not negative for non-negative parts |
| ClientRecords.ParseAmount | budgettracker_frontend/src/userProfiles/Budget.jsx:121 | a copied number is sent as is, typed text as `parseFloat` reads it |
| ClientRecords.OrDefault | budgettracker_frontend/src/userProfiles/Editprofile.jsx:35-39 | a truthy value is kept and a missing or empty one gives the default, in the profile form and in the user list's edit form alike |
| BudgetPage.ProgressColor | budgettracker_frontend/src/userProfiles/Budget.jsx:169-174 | green exactly when nothing is spent, red exactly at 100 % or more, yellow in between; a zero budget gives the colour JavaScript's infinite or NaN percentage gives |
| BudgetPage.FindCategory | budgettracker_frontend/src/userProfiles/Budget.jsx:177 | finds the first category whose name matches ignoring case, and nothing exactly when none matches |
| BudgetPage.FirstMatchUnique | budgettracker_frontend/src/userProfiles/Budget.jsx:177 | there is at most one first match |
| BudgetPage.CategoryIcon | budgettracker_frontend/src/userProfiles/Budget.jsx:176-179 | the first matching category's icon, or the fallback icon when none matches |
| BudgetPage.CategoryColor | budgettracker_frontend/src/userProfiles/Budget.jsx:181-184 | the first matching category's colour, or the fallback colour when none matches |
| BudgetPage.Remaining | budgettracker_frontend/src/userProfiles/Budget.jsx:281 | the amount left plus spent is the budget amount, and it is negative exactly when the card is over budget |
| BudgetPage.VisibleBudgets | budgettracker_frontend/src/userProfiles/Budget.jsx:277-279 | a card is shown exactly when the filter is empty or equals its lower-cased category |
| BudgetPage.EmptyFilterShowsAll | budgettracker_frontend/src/userProfiles/Budget.jsx:277-279 | with the empty filter every card is shown, in order |
| BudgetPage.Views | budgettracker_frontend/src/userProfiles/Budget.jsx:75-80 | one card per budget, carrying that budget's spent amount |
| BudgetPage.History | budgettracker_frontend/src/userProfiles/Budget.jsx:190-194 | the history holds exactly the transactions of any type in the budget's category and window, newest first |
| Sorting.SortDesc | budgettracker_frontend/src/userProfiles/Budget.jsx:81 | the sort returns a permutation of its input ordered by descending key |
| Sorting.Insert | budgettracker_frontend/src/userProfiles/Budget.jsx:81 | inserting into a sorted list keeps it sorted and adds exactly the new item |
| BudgetPage.Page.constructor | budgettracker_frontend/src/userProfiles/Budget.jsx:10-22 | no budgets, the form hidden and empty, nothing being edited or selected |
| BudgetPage.Page.Load | budgettracker_frontend/src/userProfiles/Budget.jsx:72-85 | the cards become the fetched budgets with their spent amounts, sorted newest start first; a failed fetch changes nothing |
| BudgetPage.Page.Edit | budgettracker_frontend/src/userProfiles/Budget.jsx:142-151 | the budget's fields go into the form, its id becomes the one edited and the form opens |
| BudgetPage.Page.Request | budgettracker_frontend/src/userProfiles/Budget.jsx:119-130 | an update of `editingId` when it is truthy, else a creation, with the form's fields and parsed amount |
| BudgetPage.Page.Submit | budgettracker_frontend/src/userProfiles/Budget.jsx:116-140 | sends the request; on success reloads the cards and resets the form to empty with nothing edited; on failure nothing changes |
| BudgetPage.Page.Cancel | budgettracker_frontend/src/userProfiles/Budget.jsx:534-536 | hides the form and resets it to empty with nothing edited |
| BudgetPage.Page.Select | budgettracker_frontend/src/userProfiles/Budget.jsx:186-200 | selects the budget and lists its history, or nothing when the fetch fails |
| AdminNav.AlertSpentSnoc | budgettracker_frontend/src/AdminProfile/AdminNav.jsx:69-71 | one more transaction raises an alert's spent by its amount exactly when it is an expense of the category, with no date window |
| AdminNav.AlertSpent | budgettracker_frontend/src/AdminProfile/AdminNav.jsx:69-72 | the total of the expenses of the budget's category, with no date window; 0 when none matches |
| AdminNav.LevelOf | budgettracker_frontend/src/AdminProfile/AdminNav.jsx:73-90 | a warning exactly in [70, 100) %, an error exactly from 100 %, quiet below 70 %; a zero amount warns never and errs exactly when something is spent |
| AdminNav.LevelThresholds | budgettracker_frontend/src/AdminProfile/AdminNav.jsx:76-90 | with a positive amount, error exactly when spent reaches the amount, warning exactly from 70 % of it up to the amount |
| AdminNav.NoticeFor | budgettracker_frontend/src/AdminProfile/AdminNav.jsx:73-90 | a notification exactly when the level is not quiet, with id `budget-` + id, the remaining amount, and the warning kind exactly at the warning level |
| AdminNav.Notices | budgettracker_frontend/src/AdminProfile/AdminNav.jsx:66-92 | the notifications of the budgets: none for no budgets, never more than one per budget |
| AdminNav.NoticesAppend | budgettracker_frontend/src/AdminProfile/AdminNav.jsx:67-92 | the notifications of two budget lists one after the other are those of the first list followed by those of the second, so they come in budget order |
| AdminNav.NoticesFromBudgets | budgettracker_frontend/src/AdminProfile/AdminNav.jsx:67-92 | at most one notification per budget, each the notification of one of the budgets |
| AdminNav.NoticesComplete | budgettracker_frontend/src/AdminProfile/AdminNav.jsx:67-92 | every budget that crosses a threshold has its notification listed |
| AdminNav.TransactionRoute | budgettracker_frontend/src/AdminProfile/AdminNav.jsx:127-133 | `/admin-transactions` exactly for ADMIN, `/transaction` otherwise |
| AdminNav.DashboardRoute | budgettracker_frontend/src/AdminProfile/AdminNav.jsx:118-126 | `/admin-dashboard` exactly for ADMIN, `/userDashboard` otherwise |
| AdminNav.Nav.constructor | budgettracker_frontend/src/AdminProfile/AdminNav.jsx:16-21 | no notifications, the panel closed, nothing unread, the dashboard tab |
| AdminNav.Nav.LoadRole | budgettracker_frontend/src/AdminProfile/AdminNav.jsx:24-33 | a fetched profile sets the role, empty when it has none; a failed fetch changes nothing; nothing else changes |
| AdminNav.Nav.CheckBudgetNotifications | budgettracker_frontend/src/AdminProfile/AdminNav.jsx:57-100 | the list becomes `Notices` of the fetched budgets and transactions (in budget order, by `NoticesAppend`); the unread flag is turned on when that list is non-empty and otherwise kept; a failed fetch changes nothing |
| AdminNav.Nav.ToggleNotifications | budgettracker_frontend/src/AdminProfile/AdminNav.jsx:199-201 | the panel flips, and opening it clears the unread flag |
| AdminNav.Nav.ClearAll | budgettracker_frontend/src/AdminProfile/AdminNav.jsx:298-299 | no notifications, nothing unread and no badge |
| AdminNav.Nav.UserDash | budgettracker_frontend/src/AdminProfile/AdminNav.jsx:118-126 | goes to the role's dashboard, selecting the dashboard tab for ADMIN |
| AdminNav.Nav.Transactions | budgettracker_frontend/src/AdminProfile/AdminNav.jsx:127-133 | goes to the role's transaction page |
| AdminNav.Nav.Users | budgettracker_frontend/src/AdminProfile/AdminNav.jsx:134-139 | for ADMIN goes to the users tab of the admin dashboard; any other role changes nothing |
| SavingsPage.TotalSavingsAppend | budgettracker_frontend/src/userProfiles/Savings.jsx:122-123 | the total of two lists of goals is the sum of their totals |
| SavingsPage.TotalSavings | budgettracker_frontend/src/userProfiles/Savings.jsx:122-124 | the current amounts added up, not negative when no current amount is |
| SavingsPage.CompletedGoals | budgettracker_frontend/src/userProfiles/Savings.jsx:126-127 | at most the number of goals; all of them exactly when every goal is completed, none exactly when no goal is |
| SavingsPage.Remaining | budgettracker_frontend/src/userProfiles/Savings.jsx:178 | never negative, 0 exactly when the goal is completed, otherwise target minus current |
| SavingsPage.FindSaving | budgettracker_frontend/src/userProfiles/Savings.jsx:101 | finds a goal with that id, and nothing exactly when there is none |
| SavingsPage.TopUpRequest | budgettracker_frontend/src/userProfiles/Savings.jsx:99-108 | for a listed goal, its name, target and deadline with the current amount raised by the parsed amount; nothing when the goal is not listed |
| SavingsPage.CurrentOrZero | budgettracker_frontend/src/userProfiles/Savings.jsx:56 | an empty or unparsable current amount is sent as 0 |
| SavingsPage.Page.constructor | budgettracker_frontend/src/userProfiles/Savings.jsx:9-18 | no goals, the form hidden and empty, nothing being edited |
| SavingsPage.Page.Load | budgettracker_frontend/src/userProfiles/Savings.jsx:32-40 | the goals become the fetched list, or empty when the fetch fails |
| SavingsPage.Page.Edit | budgettracker_frontend/src/userProfiles/Savings.jsx:76-85 | the goal's fields go into the form, its id becomes the one edited and the form opens |
| SavingsPage.Page.Request | budgettracker_frontend/src/userProfiles/Savings.jsx:53-64 | an update of `editingId` when it is truthy, else a creation; the current amount defaults to 0 |
| SavingsPage.Page.Submit | budgettracker_frontend/src/userProfiles/Savings.jsx:50-73 | sends the request; on success reloads and resets the form; on failure nothing changes |
| SavingsPage.Page.AddToSavings | budgettracker_frontend/src/userProfiles/Savings.jsx:99-114 | an empty input sends nothing; otherwise sends the goal's top-up and reloads on success |
| TransactionPage.Summarize | budgettracker_frontend/src/userProfiles/Transaction.jsx:34-40 | the wallet balance is income minus expenses, and the period change equals it |
| TransactionPage.SummarizeSnoc | budgettracker_frontend/src/userProfiles/Transaction.jsx:35-38 | one more `income` raises income and balance by its amount, one more `expense` raises expenses and lowers the balance; any other type changes nothing |
| TransactionPage.Page.constructor | budgettracker_frontend/src/userProfiles/Transaction.jsx:9-18 | no transactions, the form hidden and empty, nothing being edited |
| TransactionPage.Page.Load | budgettracker_frontend/src/userProfiles/Transaction.jsx:24-32 | the list becomes the fetched transactions, or empty when the fetch fails |
| TransactionPage.Page.Edit | budgettracker_frontend/src/userProfiles/Transaction.jsx:77-87 | the five fields go into the form, the id becomes the one edited and the form opens |
| TransactionPage.Page.Request | budgettracker_frontend/src/userProfiles/Transaction.jsx:52-66 | an update of `editingId` when it is truthy, else a creation, always for user 1, with the form's fields and parsed amount |
| TransactionPage.Page.Submit | budgettracker_frontend/src/userProfiles/Transaction.jsx:49-75 | sends the request; on success resets the form and reloads; on failure nothing changes |
| TransactionPage.Page.Cancel | budgettracker_frontend/src/userProfiles/Transaction.jsx:237 | hides the form and resets it to empty with nothing edited |
| TransactionAdminPage.Owner | budgettracker_frontend/src/AdminProfile/TransactionAdminPage.jsx:70 | the first truthy of `userId`, `user_id`, `user.id`, else `createdBy.id` |
| TransactionAdminPage.Filtered | budgettracker_frontend/src/AdminProfile/TransactionAdminPage.jsx:62-78 | the whole list for the empty selection; otherwise exactly the transactions whose owner equals the selection as a number or as text |
| TransactionAdminPage.FilteredAppend | budgettracker_frontend/src/AdminProfile/TransactionAdminPage.jsx:62-78 | filtering keeps the relative order of the kept transactions |
| TransactionAdminPage.SliceIndex | budgettracker_frontend/src/AdminProfile/TransactionAdminPage.jsx:84 | `slice` counts negative indices from the end and clamps both to the length |
| TransactionAdminPage.Slice | budgettracker_frontend/src/AdminProfile/TransactionAdminPage.jsx:84 | `slice` gives the elements between the normalised ends, or nothing when they cross |
| TransactionAdminPage.PageOf | budgettracker_frontend/src/AdminProfile/TransactionAdminPage.jsx:80-85 | page p is the slice [(p-1)·10, p·10) of the list, clamped to its length, and has at most 10 items |
| TransactionAdminPage.TotalPages | budgettracker_frontend/src/AdminProfile/TransactionAdminPage.jsx:87-89 | the least number of pages of ten that hold the list |
| TransactionAdminPage.PagesCoverAll | budgettracker_frontend/src/AdminProfile/TransactionAdminPage.jsx:80-89 | pages 1 to the total, one after the other, give back the list |
| TransactionAdminPage.Page.constructor | budgettracker_frontend/src/AdminProfile/TransactionAdminPage.jsx:13-15 | no transactions, no selection, page 1 |
| TransactionAdminPage.Page.Visible | budgettracker_frontend/src/AdminProfile/TransactionAdminPage.jsx:80-85 | the current page of the filtered list, at most 10 items |
| TransactionAdminPage.Page.UserFilterChange | budgettracker_frontend/src/AdminProfile/TransactionAdminPage.jsx:95-98 | sets the selection and always returns to page 1 |
| TransactionAdminPage.Page.PageChange | budgettracker_frontend/src/AdminProfile/TransactionAdminPage.jsx:91-93 | sets the page and nothing else |
| TransactionAdminPage.Page.DeleteTransaction | budgettracker_frontend/src/AdminProfile/TransactionAdminPage.jsx:100-114 | on success exactly the transactions with that id leave, the rest in order; on failure nothing changes |
| Lists.Filter | budgettracker_frontend/src/AdminProfile/TransactionAdminPage.jsx:71 | `filter` keeps exactly the matching elements |
| Lists.FilterAppend | budgettracker_frontend/src/AdminProfile/TransactionAdminPage.jsx:71 | `filter` distributes over concatenation, so order is kept |
| Lists.WithoutKey | budgettracker_frontend/src/AdminProfile/TransactionAdminPage.jsx:114 | removal by id keeps exactly the elements with another id |
| Lists.WithoutKeySnoc | budgettracker_frontend/src/AdminProfile/TransactionAdminPage.jsx:114 | removal by id keeps the other elements in order |
| Lists.WithoutAbsentKey | budgettracker_frontend/src/AdminProfile/TransactionAdminPage.jsx:114 | removing an id nobody has changes nothing |
| Lists.ReplaceKey | budgettracker_frontend/src/AdminProfile/UserList.jsx:102-104 | `map` replaces exactly the elements with that id and keeps the length |
| AdminDashboard.ActiveOnes | budgettracker_frontend/src/AdminProfile/adminDashboard.jsx:88-99 | exactly the users with a transaction dated in the current month and year |
| AdminDashboard.ActiveUsers | budgettracker_frontend/src/AdminProfile/adminDashboard.jsx:88-100 | the number of active users, floored at 1 |
| AdminDashboard.TotalTransactionAmount | budgettracker_frontend/src/AdminProfile/adminDashboard.jsx:102-104 | the transaction amounts added up: 0 for none, not negative when no amount is |
| AdminDashboard.TotalBudgetAmount | budgettracker_frontend/src/AdminProfile/adminDashboard.jsx:106-108 | the budget amounts added up: 0 for none, not negative when no amount is |
| AdminDashboard.SumMapAppend | budgettracker_frontend/src/AdminProfile/adminDashboard.jsx:102-112 | a `reduce` total over two lists is the sum of their totals |
| AdminDashboard.FlowOf | budgettracker_frontend/src/AdminProfile/adminDashboard.jsx:126-133 | type `income` adds to income, every other type adds to expenses |
| AdminDashboard.ChartData | budgettracker_frontend/src/AdminProfile/adminDashboard.jsx:114-125 | the sample series exactly when there are no transactions |
| AdminDashboard.ChartTotals | budgettracker_frontend/src/AdminProfile/adminDashboard.jsx:126-134 | one bar per month, and the bars' income and expenses add up to the transactions' income and other amounts, together to the grand total |
| AdminDashboard.BuildChartData | budgettracker_frontend/src/AdminProfile/adminDashboard.jsx:114-134 | the `forEach` loop builds the chart series |
| AdminDashboard.CategoryData | budgettracker_frontend/src/AdminProfile/adminDashboard.jsx:136-147 | the sample series exactly when there are no transactions |
| AdminDashboard.CategoryTotals | budgettracker_frontend/src/AdminProfile/adminDashboard.jsx:148-153 | one slice per category of an expense, `Other` for a missing one, and the slices add up to the total expense amount |
| AdminDashboard.BuildCategoryData | budgettracker_frontend/src/AdminProfile/adminDashboard.jsx:136-154 | the `forEach` loop builds the category series |
| AdminDashboard.TwoDigitYear | budgettracker_frontend/src/AdminProfile/adminDashboard.jsx:170 | two decimal digits whose value is the year modulo 100 |
| AdminDashboard.RegistrationData | budgettracker_frontend/src/AdminProfile/adminDashboard.jsx:156-167 | the sample series exactly when there are no users |
| AdminDashboard.SumMapOne | budgettracker_frontend/src/AdminProfile/adminDashboard.jsx:168-173 | counting one per user gives the number of users |
| AdminDashboard.RegistrationTotals | budgettracker_frontend/src/AdminProfile/adminDashboard.jsx:168-173 | one bar per registration month, and the counts add up to the number of users |
| AdminDashboard.BuildRegistrationData | budgettracker_frontend/src/AdminProfile/adminDashboard.jsx:156-174 | the `forEach` loop builds the registration series |
| AdminDashboard.BudgetSavingsData | budgettracker_frontend/src/AdminProfile/adminDashboard.jsx:176-192 | the sample exactly when both the budget and the savings totals are 0, otherwise those two totals |
| AdminDashboard.Dashboard.constructor | budgettracker_frontend/src/AdminProfile/adminDashboard.jsx:11-14 | all four lists empty |
| AdminDashboard.Dashboard.DeleteTransaction | budgettracker_frontend/src/AdminProfile/adminDashboard.jsx:194-217 | on success only the transactions with that id leave the list; on failure nothing changes; the other lists stay |
| Tally.IndexOfKey | budgettracker_frontend/src/AdminProfile/adminDashboard.jsx:129 | finds the bucket of a key, and nothing exactly when the key is new |
| Tally.Bump | budgettracker_frontend/src/AdminProfile/adminDashboard.jsx:129-132 | adds to the key's bucket, or opens one at the end for a new key |
| Tally.BumpKeys | budgettracker_frontend/src/AdminProfile/adminDashboard.jsx:129-132 | keys stay distinct and gain exactly the bumped key |
| Tally.SumByUpdate | budgettracker_frontend/src/AdminProfile/adminDashboard.jsx:129-132 | replacing one bucket changes the sum by the difference of the two values |
| Tally.SumByBump | budgettracker_frontend/src/AdminProfile/adminDashboard.jsx:129-132 | bumping by v raises the sum by v |
| Tally.TallyKeys | budgettracker_frontend/src/AdminProfile/adminDashboard.jsx:126-134 | one bucket per distinct key that occurs, and no other |
| Tally.TallySum | budgettracker_frontend/src/AdminProfile/adminDashboard.jsx:126-134 | the buckets add up to the items: nothing lost or counted twice |
| Tally.SumMapAdd | budgettracker_frontend/src/AdminProfile/adminDashboard.jsx:126-134 | a total of sums is the sum of the totals |
| Tally.SumMapNonNegative | budgettracker_frontend/src/AdminProfile/adminDashboard.jsx:102-112 | a `reduce` total of terms none of which is negative is not negative |
| UserList.FormFor | budgettracker_frontend/src/AdminProfile/UserList.jsx:76-83 | name and email default to '' and role to `USER`, so the role is never empty |
| UserList.Page.constructor | budgettracker_frontend/src/AdminProfile/UserList.jsx:10-13 | no users, nobody edited, an empty form |
| UserList.Page.DeleteUser | budgettracker_frontend/src/AdminProfile/UserList.jsx:51-74 | sends only when confirmed; a successful delete removes exactly the users with that id, the rest in order; otherwise nothing changes |
| UserList.Page.StartEdit | budgettracker_frontend/src/AdminProfile/UserList.jsx:76-83 | the user becomes the one edited and the form is filled from it |
| UserList.Page.CancelEdit | budgettracker_frontend/src/AdminProfile/UserList.jsx:85-88 | nobody edited and an empty form |
| UserList.Page.UpdateUser | budgettracker_frontend/src/AdminProfile/UserList.jsx:90-114 | sends the form; on success replaces only the entries with that id and stops editing; on failure nothing changes |
| UserList.DeleteKeepsIdsUnique | budgettracker_frontend/src/AdminProfile/UserList.jsx:64-65 | removal keeps user ids distinct |
| UserList.UpdateKeepsIdsUnique | budgettracker_frontend/src/AdminProfile/UserList.jsx:102-104 | replacing a user by one with the same id keeps ids distinct |
| UserDashboard.DayBefore | budgettracker_frontend/src/userProfiles/UserDashboard.jsx:37 | the previous day is a valid date earlier than the given one, and no valid date lies strictly between them |
| UserDashboard.NextDay | budgettracker_frontend/src/userProfiles/UserDashboard.jsx:37-39 | the next day is a valid date later than the given one, and no valid date lies strictly between them |
| UserDashboard.DaysBefore | budgettracker_frontend/src/userProfiles/UserDashboard.jsx:36-38 | `n` days earlier is a valid date, strictly earlier when `n` is positive |
| UserDashboard.DaysAfter | budgettracker_frontend/src/userProfiles/UserDashboard.jsx:36-38 | `n` days later is a valid date, strictly later when `n` is positive |
| UserDashboard.DaysBeforeThenAfter | budgettracker_frontend/src/userProfiles/UserDashboard.jsx:36-41 | stepping n days back and then n days forward returns to the same date |
| UserDashboard.FirstOfMonth | budgettracker_frontend/src/userProfiles/UserDashboard.jsx:44-50 | `new Date(y, m, 1)` is the first of a valid month, carrying month -1 and month 12 into the neighbouring years |
| UserDashboard.LastOfPreviousMonth | budgettracker_frontend/src/userProfiles/UserDashboard.jsx:46 | `new Date(y, m, 0)` is a valid date |
| UserDashboard.RangeFor | budgettracker_frontend/src/userProfiles/UserDashboard.jsx:32-62 | every period's start and end are valid dates |
| UserDashboard.ThisMonthRange | budgettracker_frontend/src/userProfiles/UserDashboard.jsx:44-47 | this month spans day 1 to the last day of the current month |
| UserDashboard.LastMonthRange | budgettracker_frontend/src/userProfiles/UserDashboard.jsx:48-51 | last month spans its first to its last day, December of the previous year in January |
| UserDashboard.YearRanges | budgettracker_frontend/src/userProfiles/UserDashboard.jsx:52-59 | this and last year span 1 January to 31 December |
| UserDashboard.LastWeekRange | budgettracker_frontend/src/userProfiles/UserDashboard.jsx:35-43 | last week ends `weekday` days before today, on the last Sunday, and starts 6 days before its end |
| UserDashboard.InitialRangeIsOctober2025 | budgettracker_frontend/src/userProfiles/UserDashboard.jsx:10 | the initial range text is what this month gives in October 2025 |
| UserDashboard.FormatDate | budgettracker_frontend/src/userProfiles/UserDashboard.jsx:65-67 | the short month name, a space, two digits whose value is the day, a comma and a space, then the year's decimal text |
| UserDashboard.FormatDateInjective | budgettracker_frontend/src/userProfiles/UserDashboard.jsx:65-67 | different dates are written differently |
| UserDashboard.FormatRange | budgettracker_frontend/src/userProfiles/UserDashboard.jsx:69 | the start's text, then a space, the en dash and a space, then the end's text; no space in the start's year |
| UserDashboard.FormatRangeInjective | budgettracker_frontend/src/userProfiles/UserDashboard.jsx:65-69 | different ranges are shown differently |
| UserDashboard.GenerateCalendar | budgettracker_frontend/src/userProfiles/UserDashboard.jsx:72-87 | the grid has `firstDay + daysInMonth` cells, the first `firstDay` empty and cell `firstDay + k` holding day `k + 1` |
| UserDashboard.Dashboard.constructor | budgettracker_frontend/src/userProfiles/UserDashboard.jsx:8-11 | dropdown and calendar closed, `This Month` with its October 2025 range |
| UserDashboard.Dashboard.SelectPeriod | budgettracker_frontend/src/userProfiles/UserDashboard.jsx:22-70 | every option sets its label and closes the dropdown; Calendar View opens the calendar and keeps the range; any other option shows its formatted range |
| EditProfile.SpaceIndex | budgettracker_frontend/src/userProfiles/Editprofile.jsx:33 | the first space, and nothing exactly when there is none |
| EditProfile.Split | budgettracker_frontend/src/userProfiles/Editprofile.jsx:33-34 | `split(' ')` gives at least one piece and no piece holds a space |
| EditProfile.JoinSplit | budgettracker_frontend/src/userProfiles/Editprofile.jsx:33-34 | joining the pieces with spaces gives back the text |
| EditProfile.SplitTwoWords | budgettracker_frontend/src/userProfiles/Editprofile.jsx:33-34 | two words split into exactly those two |
| EditProfile.SplitThreeWords | budgettracker_frontend/src/userProfiles/Editprofile.jsx:34 | three or more words give the first two as the first two pieces |
| EditProfile.FirstName | budgettracker_frontend/src/userProfiles/Editprofile.jsx:33 | the text before the first space, '' for no name |
| EditProfile.LastName | budgettracker_frontend/src/userProfiles/Editprofile.jsx:34 | the second space-separated word of the name when there are at least two, with no space in it; '' when there is no name or no space |
| EditProfile.TwoWordNameRoundTrip | budgettracker_frontend/src/userProfiles/Editprofile.jsx:33-34 | a name with exactly one space splits and joins back to itself |
| EditProfile.LaterWordsDropped | budgettracker_frontend/src/userProfiles/Editprofile.jsx:34 | words after the second are dropped on the way back |
| EditProfile.OneWordNameGainsSpace | budgettracker_frontend/src/userProfiles/Editprofile.jsx:64 | a one-word name comes back with a trailing space |
| EditProfile.FormFrom | budgettracker_frontend/src/userProfiles/Editprofile.jsx:32-40 | the form holds the split name, and currency and language default to `USD` and `english` |
| EditProfile.BodyOf | budgettracker_frontend/src/userProfiles/Editprofile.jsx:63-69 | the submitted name is always `firstName + " " + lastName`, the other fields as typed |
| EditProfile.UnchangedFormRoundTrip | budgettracker_frontend/src/userProfiles/Editprofile.jsx:22-69 | submitting an untouched form for a two-word name sends back the profile's own values |
| Api.Session.constructor | budgettracker_frontend/src/services/api.js:12-34 | the stored token and the current path |
| Api.Session.InterceptRequest | budgettracker_frontend/src/services/api.js:12-23 | sends `Bearer ` + token iff the token is usable; a truthy unusable token is removed and the request passes unchanged; no token is left untouched |
| Api.Session.InterceptResponseError | budgettracker_frontend/src/services/api.js:25-34 | a 401 away from `/` clears the token and goes to `/`; anything else changes nothing; the error is always rejected |
| Api.Member | budgettracker_frontend/src/services/api.js:36-74 | the part after the collection is empty or starts a new segment |
| Api.Verb | budgettracker_frontend/src/services/api.js:36-74 | each call is a GET, POST, PUT or DELETE, and every PUT and DELETE names one row of a resource collection |
| Api.Path | budgettracker_frontend/src/services/api.js:36-74 | each path starts with `/` and with its collection's segment |
| Api.RoutesDistinct | budgettracker_frontend/src/services/api.js:36-74 | no two calls send the same method to the same path |
| Api.RuleIndex | backend/src/main/java/com/infosys/backend/configuration/SecurityConfig.java:45-59 | each collection has a rule of the table, the auth collection the first |
| Api.RuleCoversCollection | backend/src/main/java/com/infosys/backend/configuration/SecurityConfig.java:45-59 | the collection's rule is `/api` followed by its segment |
| Api.EndpointUnderRule | budgettracker_frontend/src/services/api.js:36-74 | every endpoint's server path lies under its collection's rule |
| Api.AuthEndpointsPublic | budgettracker_frontend/src/services/api.js:36-40 | login, signup and profile paths are open to anyone |
| Api.ResourceEndpointsOpenToUsers | budgettracker_frontend/src/services/api.js:42-74 | every other endpoint is open to a USER |
| SecurityConfig.RequiredAccess | backend/src/main/java/com/infosys/backend/configuration/SecurityConfig.java:43-63 | a path no rule matches needs authentication |
| SecurityConfig.Rules | backend/src/main/java/com/infosys/backend/configuration/SecurityConfig.java:45-59 | eleven `/api/` matchers, each public, ADMIN-only or for USER or ADMIN, and public exactly for `/api/auth` |
| SecurityConfig.AccessFromTable | backend/src/main/java/com/infosys/backend/configuration/SecurityConfig.java:43-63 | the access required is the default or that of a matching rule |
| SecurityConfig.Granted | backend/src/main/java/com/infosys/backend/configuration/SecurityConfig.java:43-63 | an anonymous caller is let in exactly under `/api/auth`, and an ADMIN everywhere |
| SecurityConfig.FirstMatchDecides | backend/src/main/java/com/infosys/backend/configuration/SecurityConfig.java:43-63 | the first matching rule decides |
| SecurityConfig.MatchOverlap | backend/src/main/java/com/infosys/backend/configuration/SecurityConfig.java:43-63 | two patterns matching one path are equal or one lies below the other |
| SecurityConfig.TableSeparated | backend/src/main/java/com/infosys/backend/configuration/SecurityConfig.java:45-59 | no two patterns of the table lie below each other |
| SecurityConfig.MatchingRuleDecides | backend/src/main/java/com/infosys/backend/configuration/SecurityConfig.java:43-63 | so any rule that matches decides, not only the first |
| SecurityConfig.AuthIsPublic | backend/src/main/java/com/infosys/backend/configuration/SecurityConfig.java:45 | everything under `/api/auth` is granted to anyone |
| SecurityConfig.AdminOnly | backend/src/main/java/com/infosys/backend/configuration/SecurityConfig.java:48-49 | under `/api/admin` and `/api/users` access is granted exactly to ADMIN |
| SecurityConfig.ResourceForUserOrAdmin | backend/src/main/java/com/infosys/backend/configuration/SecurityConfig.java:52-59 | under the eight resource prefixes access is granted exactly to USER or ADMIN |
| SecurityConfig.OtherPathsNeedAuthentication | backend/src/main/java/com/infosys/backend/configuration/SecurityConfig.java:62 | any other path is granted exactly to a signed-in caller |
| SecurityConfig.UserAndUsersDistinct | backend/src/main/java/com/infosys/backend/configuration/SecurityConfig.java:49-58 | `/api/user/…` is open to USER while `/api/users/…` is not |
| AuthController.IndexOfEmail | backend/src/main/java/com/infosys/backend/controller/AuthController.java:146 | the first user with the email, and nothing exactly when none has it |
| AuthController.FindByEmail | backend/src/main/java/com/infosys/backend/controller/AuthController.java:56-57 | a user with that email, and nothing exactly when none has it |
| AuthController.BearerToken | backend/src/main/java/com/infosys/backend/controller/AuthController.java:49-53 | a token exactly when the header starts with `Bearer `, namely the header without those 7 characters |
| AuthController.BearerRoundTrip | backend/src/main/java/com/infosys/backend/controller/AuthController.java:49-53 | the token of `Bearer ` + t is t |
| AuthController.IndexOfNewEmail | backend/src/main/java/com/infosys/backend/controller/AuthController.java:146-161 | a new email, once appended, is found at the new row |
| AuthController.AuthController.constructor | backend/src/main/java/com/infosys/backend/controller/AuthController.java:30-42 | an empty user table with the given encoder and token reader |
| AuthController.AuthController.Signup | backend/src/main/java/com/infosys/backend/controller/AuthController.java:119-170 | blank name, email, password, then existing email are refused in that order with their messages and store nothing; otherwise, for a body without an id, exactly one user is added with the encoded password and role USER by default; emails stay unique |
| AuthController.AuthController.GetProfile | backend/src/main/java/com/infosys/backend/controller/AuthController.java:44-64 | 401 without a `Bearer ` header; the profile exactly when the token names a stored email; otherwise 401 invalid token |
| AuthController.AuthController.UpdateProfile | backend/src/main/java/com/infosys/backend/controller/AuthController.java:66-94 | 401 without a `Bearer ` header; succeeds exactly when the token names a user and the merged email stays unique, replacing only that user; otherwise 500 and nothing changes |
| AuthController.Merge | backend/src/main/java/com/infosys/backend/controller/AuthController.java:81-85 | name and email are overwritten only when sent; id, password and role stay |
| AuthController.MergeNothing | backend/src/main/java/com/infosys/backend/controller/AuthController.java:81-85 | an update sending nothing changes nothing |
| AuthController.MergeIdempotent | backend/src/main/java/com/infosys/backend/controller/AuthController.java:81-85 | applying the same update twice is applying it once |
| OwnedRows.IndexOfId | backend/src/main/java/com/infosys/backend/controller/BudgetController.java:69-70 | `findById`: the row with that id, and nothing exactly when none has it |
| OwnedRows.OwnedBy | backend/src/main/java/com/infosys/backend/controller/BudgetController.java:38 | exactly the rows of the owner |
| OwnedRows.RemoveAt | backend/src/main/java/com/infosys/backend/controller/BudgetController.java:99 | the table without that row, the rest in order |
| OwnedRows.RemoveAtMembers | backend/src/main/java/com/infosys/backend/controller/BudgetController.java:99 | with distinct ids, deletion keeps exactly the rows with other ids and the id invariant |
| OwnedRows.AppendKeepsIds | backend/src/main/java/com/infosys/backend/controller/BudgetController.java:56 | a row with the next id keeps ids ascending and below the next id |
| OwnedRows.ReplaceKeepsIds | backend/src/main/java/com/infosys/backend/controller/BudgetController.java:81 | overwriting a row's columns keeps the id invariant |
| BudgetController.BudgetController.constructor | backend/src/main/java/com/infosys/backend/controller/BudgetController.java:20-29 | an empty table |
| BudgetController.BudgetController.GetBudgets | backend/src/main/java/com/infosys/backend/controller/BudgetController.java:33-39 | exactly the caller's budgets; `User not found` for an unknown caller |
| BudgetController.BudgetController.CreateBudget | backend/src/main/java/com/infosys/backend/controller/BudgetController.java:44-57 | one new row with the next id, owned by the caller whatever the body says |
| BudgetController.BudgetController.UpdateBudget | backend/src/main/java/com/infosys/backend/controller/BudgetController.java:62-82 | unknown caller, missing id and non-owner are refused and change nothing; the owner's update replaces the columns and keeps id and owner |
| BudgetController.BudgetController.DeleteBudget | backend/src/main/java/com/infosys/backend/controller/BudgetController.java:87-100 | unknown caller, missing id and non-owner are refused and change nothing; the owner's delete removes exactly that budget |
| SavingsController.SavingsController.constructor | backend/src/main/java/com/infosys/backend/controller/SavingsController.java:20-29 | an empty table |
| SavingsController.SavingsController.GetAllSavings | backend/src/main/java/com/infosys/backend/controller/SavingsController.java:33-39 | exactly the caller's goals; `User not found` for an unknown caller |
| SavingsController.SavingsController.CreateSavings | backend/src/main/java/com/infosys/backend/controller/SavingsController.java:44-57 | one new row with the next id, owned by the caller |
| SavingsController.SavingsController.UpdateSavings | backend/src/main/java/com/infosys/backend/controller/SavingsController.java:62-82 | unknown caller, missing goal and non-owner are refused and change nothing; the owner's update replaces the columns and keeps id and owner |
| SavingsController.SavingsController.DeleteSavings | backend/src/main/java/com/infosys/backend/controller/SavingsController.java:87-100 | unknown caller, missing goal and non-owner are refused and change nothing; the owner's delete removes exactly that goal |
| ForumPostsController.ForumPostsController.constructor | backend/src/main/java/com/infosys/backend/controller/ForumPostsController.java:20-29 | an empty table |
| ForumPostsController.ForumPostsController.GetAllCommunityPosts | backend/src/main/java/com/infosys/backend/controller/ForumPostsController.java:33-35 | every post, whoever owns it |
| ForumPostsController.ForumPostsController.CreatePost | backend/src/main/java/com/infosys/backend/controller/ForumPostsController.java:40-53 | one new post with the next id, owned by the caller |
| ForumPostsController.ForumPostsController.UpdatePost | backend/src/main/java/com/infosys/backend/controller/ForumPostsController.java:58-78 | unknown caller, missing post and non-owner are refused and change nothing; the owner's update replaces title, content and date and keeps id and owner |
| ForumPostsController.ForumPostsController.DeletePost | backend/src/main/java/com/infosys/backend/controller/ForumPostsController.java:83-98 | unknown caller, missing post and non-owner are refused and change nothing; the owner's delete removes exactly that post |
| TransactionService.TransactionService.constructor | backend/src/main/java/com/infosys/backend/service/TransactionService.java:16-22 | an empty table |
| TransactionService.TransactionService.FindById | backend/src/main/java/com/infosys/backend/service/TransactionService.java:35-37 | the transaction with that id, or an error naming the id exactly when there is none |
| TransactionService.TransactionService.UpdateTransaction | backend/src/main/java/com/infosys/backend/service/TransactionService.java:41-60 | a missing id answers `Transaction not found!`; an unknown user is thrown before any write; otherwise owner and all columns are replaced at that row only |
| TransactionService.TransactionService.DeleteTransaction | backend/src/main/java/com/infosys/backend/service/TransactionService.java:64-71 | removes the row iff it exists, with the matching message; otherwise nothing changes |
| Text.Lower | budgettracker_frontend/src/userProfiles/Budget.jsx:94 | ASCII `toLowerCase`: same length, each letter lowered, no upper-case letter left |
| Text.LowerIdempotent | budgettracker_frontend/src/userProfiles/Budget.jsx:94 | lowering twice is lowering once |
| Text.LexLeTotalOrder | budgettracker_frontend/src/userProfiles/Budget.jsx:96 | JavaScript's string `<=` is a total order |
| Text.IntToString | backend/src/main/java/com/infosys/backend/service/TransactionService.java:36 | decimal text, with a leading minus exactly for negatives |
| Text.TwoDigits | budgettracker_frontend/src/userProfiles/UserDashboard.jsx:66 | a number below 100 as two decimal digits whose value is the number |
| Text.IntToStringInjective | backend/src/main/java/com/infosys/backend/service/TransactionService.java:36 | different ids give different text |

## Left out

- HTTP, `fetch`/axios, `Promise.all`, polling and storage events: every server answer is a parameter (an `Option` or a success flag), and every `window.confirm` is a `confirmed` flag.
- The request bodies' JSON encoding and the repositories' SQL are not modelled. Repositories are sequences of rows; the password encoder and the JWT subject reader are functions fixed when the controller is built.
- JwtUtil, JwtAuthenticationFilter, BCrypt and `AuthenticationManager` are not part of this model: their code is not in the repository.
- The clock: today, the weekday of today (`getDay`) and the weekday of the first of the month are parameters of `UserDashboard`. The current year and month are parameters of `AdminDashboard`.
- Locale formatting: `toLocaleDateString` is modelled only for the `en-US` short month, two-digit day and numeric year the code asks for, with years of at least 1. `toFixed`, `toLocaleString` and the `Remaining:` details line of a notification are not modelled.
- JavaScript number parsing: `parseFloat` and `parseInt` are parameters (`None` stands for NaN). Floating-point rounding is not modelled.
- BudgetPage.Spent: the amounts of the fetched transactions are taken as numbers, so `parseFloat(t.amount || 0)` of a missing or textual amount is not modelled. `calculateSpentAmount` fetches the transactions once per budget. When that fetch fails it returns 0, which is what an empty transaction list gives (`BudgetPage.Page.Load` with no transactions). A fetch that fails for some budgets and succeeds for others is not modelled: the model reads one transaction list for all budgets.
- BudgetPage.Views: a budget's category is a non-null string. A budget with no category, which would make `toLowerCase` throw, is not modelled.
- Calendar.ParseIsoDate: only the unsigned four-digit year is modelled. `LocalDate.parse` also accepts a signed year such as `+10000-01-01` or `-0001-01-01`; the model refuses those.
- AuthController.Signup: a signup body carrying an `id` is not modelled. The body is bound to `Users`, whose `setId` is public (Users.java:44), so such a body reaches `userRepo.save` with that id. Spring Data then merges it, and for an existing row that replaces the row instead of adding a user. The model's signup body has no id, and a successful signup always appends.
- Sorting.SortDesc: `new Date(b.startDate) - new Date(a.startDate)` is modelled as the reverse string order of the ISO dates. This is the same order for well-formed `yyyy-mm-dd` dates, not for malformed ones.
- Tally: `Object.values`/`Object.entries` list integer-like keys first in ascending order. The month and category keys here are not integer-like, except for a category spelled as a number, which the model orders by insertion.
- AdminDashboard.ChartData: the month key of a transaction whose date does not parse is `Invalid Date`, like the browser's. The fixed sample series is a constant whose numbers are not modelled.
- ExpensePredictionService: the entity's `type` and `date` columns are nullable (Transactions.java:29-38), and a `null` there makes `getType().equalsIgnoreCase` or `LocalDate.parse` throw. The model's type and date are non-null strings, so that failure is not modelled.
- AdminNav.AlertSpent: `t.category?.toLowerCase() === budget.category?.toLowerCase()` counts a transaction without a category against a budget without one, since both sides are `undefined`. The model's budget category is a non-null string, so a budget without a category is not modelled.
- AdminNav.Nav.UserDash: the non-admin branch also calls `checkBudgetNotifications`; that call is the separate method `CheckBudgetNotifications`.
- UserDashboard.Dashboard.SelectPeriod: the `default` branch of the switch cannot be reached from the fixed list of six options, so it is not modelled.
- EditProfile: `birthDate` and `profileImage` are not modelled; the form code beside the name split and join does not read them.
- UserList: `fetchUsers` is plain fetching, where the answer becomes the list; only the list updates are modelled.
- TransactionService: `creatingTransaction` and `fetchTransactions` forward to the repository unchanged and are not modelled. A `null` `user_id` in an update is not modelled.
- `setUser_id` in TransactionService does not match the entity's `user` field; it is modelled as setting the owner.
- ForumCommentsController, AdminController.deleteTransaction, UserController, ExportsController and PredictionController are not part of this model:
  - ForumCommentsController calls service methods that do not exist;
  - AdminController.deleteTransaction deletes nothing;
  - the other three only forward to code outside the core.
- Rendering, styling, icons, charts, modals and the purely presentational pages are not modelled.
