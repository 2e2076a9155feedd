# Finance-Manager in Dafny

A model of the budget bookkeeping at the heart of Finance-Manager, a household budget application with a React web client and a Flask backend. The model covers the parts of the application whose behaviour is logic over lists of transactions and plans:

- **The dashboard** (`FinanceManager.jsx`). This covers the add-transaction form and its validation, and the add, edit and delete updates to the local transaction list. It also covers the reporting-period filter, search, sorting and pagination, the balance totals and the chart data: expenses by category, the per-date timeline, per-member totals, weekday averages and the grouped list. Modules: `FinanceState`, `FinanceFilters`, `FinanceCharts` and `Ledger`.
- **The month planner**, in its two copies.
  - `MonthPlanner` is the server-backed copy. It checks its form, and a save call that fails leaves the plan unchanged. As written, every save fails, because the component calls an API member that the Axios instance does not have.
  - `LocalPlanner` is the browser-storage copy. It hands every change to `onSavePlan`, keeps amounts as typed, and computes with unguarded JavaScript arithmetic, so NaN and infinities show up; they are modelled in `JsNumber`.
  - Each copy covers totals and variance, category progress, the savings goal, the merged date timeline and the daily budget.
- **The family dashboard** (`FamilyStats`), including the contributions loop as written and as intended.
- **The two Redux slices** (`AiSlice`, `AuthSlice`) and **the notification bell** (`NotificationBell`). Each is a class whose methods update its fields in place and keep the slice's invariant: the unread counter, and "authenticated exactly when a token is held".
- **The three password rule sets** of the sign-up screens (`Passwords`).
- **The reporting ranges** of `calculateDateRange` (`DateRanges`), over a proleptic Gregorian calendar. `Calendar` models JavaScript's `setDate`/`setMonth` overflow and the ISO 8601:2004 (section 4.1.2.2) YYYY-MM-DD form read by Python's `strptime`.
- **The backend budgeting heuristics** (`BudgetAdvisor`). These are the 50/30/20 allocation check, per-category predictions, the weighted family split and the savings plan, with the constants of `backend/ai/config.py`.
- **The backend handlers** over an in-memory copy of their tables (`BackendStore`, `BackendApp`, `PlanRoutes`). This includes the required-field and ownership guards, partial updates, the dashboards, and the monthly-plan lookups and upserts with their personal-then-family fallback.

Notes on how the model is built:

- Amounts are `real`s.
- A JavaScript object or Python dict that a loop fills is a list of entries in first-seen key order (`Groups`, `Common.FirstSeen`). Each such loop is a `method` proved against the function that defines its result.
- Today's date, the clock, server replies, `parseFloat`, the fitted trend of the predictions and the password hash are parameters.
- Where a handler awaits a server call, the call's outcome is a parameter, and the method states the new state for each outcome.

## Model

| member | source | states |
|---|---|---|
| AiSlice.FindNotice | frontend/src/redux/aiSlice.js:98 | `items.find` by id: the index of the first notice with that id, or -1 when no notice has it |
| AiSlice.UnreadAfterMark | frontend/src/redux/aiSlice.js:97-102 | marking one unread notice read lowers the unread count of the list by exactly one, so `unreadCount--` keeps the counter equal to the list's unread count |
| AiSlice.AiState.constructor | frontend/src/redux/aiSlice.js:45-68 | the initial state: empty list, zero counter, nothing loading, no data, no errors, empty chat; the counter agrees with the list |
| AiSlice.AiState.AddChatMessage | frontend/src/redux/aiSlice.js:74-76 | the message is appended to the chat history and nothing else changes |
| AiSlice.AiState.ClearChatHistory | frontend/src/redux/aiSlice.js:77-79 | the chat history becomes empty and nothing else changes |
| AiSlice.AiState.NotificationsPending | frontend/src/redux/aiSlice.js:84-87 | loading on, error cleared, list and counter kept (so their agreement is kept) |
| AiSlice.AiState.NotificationsFulfilled | frontend/src/redux/aiSlice.js:88-92 | the list is replaced by the payload and the counter is its number of unread notices, so the counter agrees with the list whatever the state was |
| AiSlice.AiState.NotificationsRejected | frontend/src/redux/aiSlice.js:93-96 | loading off, error set to the (possibly undefined) message, the rest kept |
| AiSlice.AiState.MarkNotificationRead | frontend/src/redux/aiSlice.js:97-103 | the first notice with the id, when unread, becomes read and the counter drops by one; a read or missing notice changes nothing; the counter keeps agreeing with the list |
| AiSlice.AiState.RequestPending | frontend/src/redux/aiSlice.js:106-137 | the chosen request's loading is on and its error cleared; the other two requests, the notifications and the chat are untouched |
| AiSlice.AiState.RequestFulfilled | frontend/src/redux/aiSlice.js:110-141 | the chosen request's data is the payload and loading is off; nothing else changes |
| AiSlice.AiState.RequestRejected | frontend/src/redux/aiSlice.js:114-145 | the chosen request's error is the message and loading is off; nothing else changes |
| AuthSlice.Or | frontend/src/redux/authSlice.js:20 | a present non-empty message wins, an absent or empty one gives the fallback |
| AuthSlice.LoginThunk | frontend/src/redux/authSlice.js:5-22 | fulfilled exactly when the server answered with a non-empty token, with the reply as payload; a reply without a token is rejected with "Login failed"; a failed call is rejected with the server's message or "Login failed"; a rejection never carries an empty reason |
| AuthSlice.RegisterThunk | frontend/src/redux/authSlice.js:25-35 | fulfilled exactly when the server answered; a failure carries the server's message or "Registration failed", never empty |
| AuthSlice.AuthState.constructor | frontend/src/redux/authSlice.js:39-45 | the token is the stored one and the session is authenticated exactly when the stored token is non-empty, so the state is consistent unless an empty token was stored |
| AuthSlice.AuthState.Logout | frontend/src/redux/authSlice.js:47-55 | user, token and error cleared, not authenticated, loading untouched; the state is consistent |
| AuthSlice.AuthState.ClearError | frontend/src/redux/authSlice.js:56-58 | only the error is cleared |
| AuthSlice.AuthState.Pending | frontend/src/redux/authSlice.js:63-85 | loading on and error cleared; the session is untouched |
| AuthSlice.AuthState.LoginFulfilled | frontend/src/redux/authSlice.js:67-73 | user and token taken from the payload, authenticated, not loading, no error; consistent exactly when the payload had a token |
| AuthSlice.AuthState.LoginRejected | frontend/src/redux/authSlice.js:74-80 | the session is cleared and the error is the payload or "Login failed" |
| AuthSlice.AuthState.RegisterFulfilled | frontend/src/redux/authSlice.js:86-89 | loading off, error cleared; registering does not sign in |
| AuthSlice.AuthState.RegisterRejected | frontend/src/redux/authSlice.js:90-93 | the error is the payload or "Registration failed"; the session is untouched |
| AuthSlice.AuthState.Login | frontend/src/redux/authSlice.js:5-80 | after pending and the settled action, the session is authenticated exactly when the reply held a non-empty token, with that token and user; otherwise it is cleared and carries the thunk's reason; the state is consistent |
| AuthSlice.AuthState.Register | frontend/src/redux/authSlice.js:25-93 | after pending and the settled action the error is absent on success and the server's message or "Registration failed" on failure; the session is unchanged |
| NotificationBell.MarkRead | frontend/src/components/ai/AINotificationSystem.jsx:66-72 | same length; each notice with the id becomes read, every other notice is kept as it is |
| NotificationBell.FirstCritical | frontend/src/components/ai/AINotificationSystem.jsx:30-33 | an alert exists exactly when some notice is high-priority and unread, and it is such a notice of the list |
| NotificationBell.MarkReadDot | frontend/src/components/ai/AINotificationSystem.jsx:66-76 | the dot computed from the old list after a mark-read is on exactly when the marked list still has an unread notice |
| NotificationBell.DismissKeepsOthers | frontend/src/components/ai/AINotificationSystem.jsx:83-85 | dismissing keeps exactly the notices with another id, and leaves a list without that id unchanged |
| NotificationBell.DismissDot | frontend/src/components/ai/AINotificationSystem.jsx:82-90 | the dot computed from the old list after a dismissal is on exactly when the remaining list has an unread notice |
| NotificationBell.NotificationColor | frontend/src/components/ai/AINotificationSystem.jsx:92-105 | each of the four known types has its own pair of classes, and every other type (and only those) gets gray |
| NotificationBell.Bell.constructor | frontend/src/components/ai/AINotificationSystem.jsx:6-8 | empty list, panel closed, no dot |
| NotificationBell.Bell.FetchNotifications | frontend/src/components/ai/AINotificationSystem.jsx:11-40 | a failed request changes nothing; a reply replaces the list; since the polled function compares with the list of the first render, which is empty, every non-empty reply turns the dot on (even a repeat of the list shown) and raises the first high-priority unread notice, if any; an empty reply leaves the dot alone and raises nothing |
| NotificationBell.Bell.MarkAsRead | frontend/src/components/ai/AINotificationSystem.jsx:63-80 | after an accepted call the list is the marked list and the dot is on exactly when it still has an unread notice; a refused call changes nothing |
| NotificationBell.Bell.DismissNotification | frontend/src/components/ai/AINotificationSystem.jsx:82-90 | the notices with the id leave the list and the dot is on exactly when an unread notice remains |
| NotificationBell.Bell.ToggleBell | frontend/src/components/ai/AINotificationSystem.jsx:110-113 | the panel flips, the dot is cleared, the list is kept |
| NotificationBell.Bell.FetchNewNotifications | frontend/src/components/ai/AINotificationSystem.jsx:20-40 | the corrected fetch: only a reply longer than the list shown turns the dot on and raises the first high-priority unread notice; a repeat of the list shown leaves the dot as it was and raises nothing |
| Passwords.Test | frontend/src/components/AuthPage.jsx:24-27 | a bracket-expression regex test is true exactly when some character of the password lies in the class |
| Passwords.DotRun | frontend/src/components/AuthForm.jsx:10 | `/.{8,}/.test` is true exactly when some run of eight consecutive characters holds no line terminator |
| Passwords.DotRunStep | frontend/src/components/AuthForm.jsx:10 | when the first k characters hold a line terminator, a run of k exists in the password exactly when it exists after its first character |
| Passwords.DotRunLength | frontend/src/components/AuthForm.jsx:10 | `.{8,}` needs at least eight characters, and on a password without line breaks it means exactly "at least eight characters" |
| Passwords.PageStrength | frontend/src/components/AuthPage.jsx:21-29 | each of the five flags holds exactly when its rule does: length at least 8, some upper-case letter, some lower-case letter, some digit, some of the page's special characters |
| Passwords.AuthPage.constructor | frontend/src/components/AuthPage.jsx:5-19 | the form opens empty on the sign-in tab with every flag down, and those flags already describe the empty password |
| Passwords.AuthPage.InputChange | frontend/src/components/AuthPage.jsx:31-41 | only the named field takes the value; the flags are recomputed from the new value only for the password field, so they keep describing the password |
| Passwords.AuthPage.SetRegisterActive | frontend/src/components/AuthPage.jsx:210 | switching tabs changes only which tab is active |
| Passwords.AuthPage.Submit | frontend/src/components/AuthPage.jsx:43-58 | signing in always dispatches the whole form; registering dispatches it exactly when every flag is up and the two passwords match, which while the flags describe the password means the password meets all five rules |
| Passwords.ValidatePassword | frontend/src/components/AuthForm.jsx:29-36 | one entry per requirement, in table order, each true exactly when its rule passes; the answer is true exactly when the password meets all five of the form's rules |
| Passwords.FormSubmit | frontend/src/components/AuthForm.jsx:38-55 | signing in skips both checks; registering is refused with the mismatch message when the passwords differ, else with the requirements message when a rule fails, and otherwise dispatches the form |
| Passwords.SettledError | frontend/src/components/AuthForm.jsx:53-59 | the error is empty after a fulfilled action and is the rejection's text after a rejected one |
| Passwords.SettledErrorShown | frontend/src/components/AuthForm.jsx:53-59 | after a sign-in the error is empty exactly when the server answered with a token; after a registration, exactly when the server answered |
| Passwords.RegisterSubmit | frontend/src/pages/Register.jsx:25-47 | a dispatch happens exactly when the passwords match and have at least six characters; a mismatch is reported before a short password; the dispatch carries only email and password |
| Passwords.RuleSetsNest | frontend/src/components/AuthForm.jsx:9-15 | a password the auth form accepts passes all five flags of the auth page, and one that passes those has at least the register page's six characters |
| Passwords.PageLooserThanForm | frontend/src/components/AuthPage.jsx:27 | the converse fails: "Abcdefg1(" passes the auth page but not the auth form, whose special characters leave out the parenthesis |
| BudgetAdvisor.CategoryTotals | backend/ai/services.py:78-82 | the category loop builds exactly the grouping of the expenses by category: one total per category, in first-seen order |
| BudgetAdvisor.AnalyzeSpending | backend/ai/services.py:30-54 | nothing exactly for an empty list, on which the scaler raises and the routes answer 500; otherwise the total spent is the sum of all amounts, and the breakdown has one entry per category that occurs, no other and no repeat, with values that add up to the total spent |
| BudgetAdvisor.GetGrouped | backend/ai/services.py:86-88 | `category_expenses.get(cat, 0)` is the category's own total, and 0 for a category without expenses |
| BudgetAdvisor.SumGetsGrouped | backend/ai/services.py:86-88 | summing the lookups over a group of categories is summing the categories' own totals |
| BudgetAdvisor.SumValuesSnoc | backend/ai/services.py:79-82 | one more expense raises a group's sum by its amount exactly when its category is in the group, and only once |
| BudgetAdvisor.SumValuesIsGroupSpend | backend/ai/services.py:79-88 | for a group without repeated categories, the dictionary route equals the reference: the sum of the amounts of the expenses whose category is in the group |
| BudgetAdvisor.GroupsAreSpend | backend/ai/config.py:10-34 | for the three configured groups, the lookups in the grouped totals add up to the group's reference spend |
| BudgetAdvisor.Part | backend/ai/services.py:98-117 | one group's recommendation is present exactly when its condition holds, and names the group with its share |
| BudgetAdvisor.Recommendations | backend/ai/services.py:97-117 | a needs recommendation exactly when needs exceed 50% of income, a wants one exactly when wants exceed 30%, a savings one exactly when savings are below 20% |
| BudgetAdvisor.RecommendationsOrdered | backend/ai/services.py:97-117 | the recommendations come in the order needs, wants, savings, each with its own group's share |
| BudgetAdvisor.GenerateBudgetRecommendations | backend/ai/services.py:72-119 | income 0 is the division by zero (no result); otherwise each share is the group's reference spend divided by income, and the recommendations are the ones those shares call for |
| BudgetAdvisor.MonthsOfCategory | backend/ai/services.py:126-137 | a category's inner dictionary is the month fold of that category's own transactions |
| BudgetAdvisor.GroupByCategoryAndMonth | backend/ai/services.py:124-137 | the two-level loop builds exactly the grouping by category of the per-month totals |
| BudgetAdvisor.Max0 | backend/ai/services.py:151 | `max(0, x)` is never negative |
| BudgetAdvisor.Project | backend/ai/services.py:150-152 | `months_ahead` projections (none for a non-positive count), the i-th being `max(0, last + trend * i)` and never negative |
| BudgetAdvisor.MonthValues | backend/ai/services.py:142 | `list(monthly_data.values())`: the month totals in dictionary order |
| BudgetAdvisor.PredictionFor | backend/ai/services.py:141-153 | a category is predicted exactly when it has at least three months; the prediction starts from the last month's total and projects from the fitted trend |
| BudgetAdvisor.AddPrediction | backend/ai/services.py:141-153 | one turn of the prediction loop appends the category's prediction when there is one, and nothing otherwise |
| BudgetAdvisor.PredictFutureExpenses | backend/ai/services.py:121-155 | the predictions are those of the category-and-month grouping, category by category in first-seen order |
| BudgetAdvisor.PredictionsOfEntries | backend/ai/services.py:141-153 | a prediction is in the result exactly when some category entry gives it |
| BudgetAdvisor.CategoryEntry | backend/ai/services.py:126-137 | a category's inner dictionary is the month grouping of its own transactions, and a category with a transaction has an entry |
| BudgetAdvisor.PredictionsForKey | backend/ai/services.py:141-153 | a key is predicted exactly when it has an entry with at least three months, and only with that entry's prediction |
| BudgetAdvisor.PredictedCategories | backend/ai/services.py:141-143 | a category is predicted exactly when its transactions span at least three distinct months |
| BudgetAdvisor.PredictionOfCategory | backend/ai/services.py:141-153 | every prediction is the one its category's own month grouping gives |
| BudgetAdvisor.PredictionStart | backend/ai/services.py:143-152 | every prediction's category has at least three months, starts from the total of the month seen last, and projects `months_ahead` non-negative amounts |
| BudgetAdvisor.PredictionOfMonths | backend/ai/services.py:142-148 | a prediction made from a month grouping has at least three months and starts from the total of the month seen last |
| BudgetAdvisor.RoleWeight | backend/ai/services.py:167-170 | the role factor: 1.2 for a primary earner, 0.8 for a dependent, 1.0 otherwise; always positive |
| BudgetAdvisor.Weight | backend/ai/services.py:164-174 | a member's weight is the role factor, times 1.3 with special needs; always positive |
| BudgetAdvisor.Shares | backend/ai/services.py:180-183 | one allocation per weight entry, under the same id, `weight / total * budget` |
| BudgetAdvisor.TotalWeight | backend/ai/services.py:177 | the running total is never negative and is positive as soon as there is a member |
| BudgetAdvisor.WeighMembers | backend/ai/services.py:160-177 | the first loop leaves the weights grouped by id (a repeated id keeps its last weight) and the total of all members' weights |
| BudgetAdvisor.OptimizeFamilyBudget | backend/ai/services.py:157-191 | the weights by id, their total and each id's share of the budget |
| BudgetAdvisor.WeightEntries | backend/ai/services.py:176 | with distinct ids, one weight entry per member, in member order |
| BudgetAdvisor.FoldDistinctIds | backend/ai/services.py:163-176 | with pairwise distinct ids the weight dictionary is one entry per member, in order |
| BudgetAdvisor.SharesSum | backend/ai/services.py:181-182 | the allocations add up to the weights' sum divided by the total, times the budget |
| BudgetAdvisor.WeightsAddUp | backend/ai/services.py:176-177 | the weight entries add up to the running total |
| BudgetAdvisor.BudgetFullyAllocated | backend/ai/services.py:157-191 | with at least one member and distinct ids, each member gets weight over total times the budget, and the allocations add up to the whole budget |
| BudgetAdvisor.RepeatedIdHalvesBudget | backend/ai/services.py:176-182 | a repeated id is counted twice in the total but once in the dictionary, so two plain members with the same id get half the budget in all |
| BudgetAdvisor.FindPotentialSavings | backend/ai/services.py:234-253 | three suggestions, Subscriptions, Dining Out and Utilities, together worth 18% of the monthly expenses and none negative when expenses are not |
| BudgetAdvisor.RateFor | backend/ai/services.py:205-211 | the aggressive rate exactly under 12 months, the conservative one exactly beyond 36, the default in between |
| BudgetAdvisor.GenerateSavingsPlan | backend/ai/services.py:193-232 | no plan exactly where the service divides by zero; with a target, the months are days over 30, the plan is feasible exactly when the required amount fits what is left each month, and the rate follows the horizon; without one, it is feasible at the default rate; savings suggestions appear exactly when it is not feasible |
| BudgetAdvisor.PlanReachesGoal | backend/ai/services.py:197-216 | saving the required amount for the stated number of months reaches the goal exactly |
| BackendApp.ErrorStatus | backend/app.py:227-231 | a `ValueError` from a conversion is answered 400, a `TypeError` falls to the generic handler and is answered 500 |
| BackendApp.FindRow | backend/app.py:239 | `get_or_404(id)`: the index of the row with that id, or -1 when no row has it |
| BackendApp.Patch | backend/app.py:248-262 | the update succeeds exactly when each present amount and date converts; a bad amount decides the error before the date; on success each field present in the body replaces the stored one, each absent field is kept, and the owner never changes |
| BackendApp.PatchWithoutConversions | backend/app.py:251-258 | a body without amount and date cannot fail and keeps both as stored |
| BackendApp.KindTotalIsSum | backend/app.py:319-323 | the dashboard sum of a type is the sum of the amounts of exactly the caller's rows of that type; other users' rows and other types count in no sum |
| BackendApp.DeleteLowersTotal | backend/app.py:296 | deleting a row takes exactly its contribution out of every dashboard sum |
| BackendApp.ReplaceShiftsTotal | backend/app.py:249-264 | updating a row swaps its old contribution to every dashboard sum for its new one |
| BackendApp.AddRaisesTotal | backend/app.py:210-211 | adding a row adds exactly its contribution to every dashboard sum |
| BackendApp.ViewOf | backend/app.py:367-390 | the caller's stored plan for the month, or the empty structure with the month, two empty lists and an empty note |
| BackendApp.App.constructor | backend/models.py:6-84 | the tables start empty and every id counter at 1 |
| BackendApp.App.Register | backend/app.py:78-104 | 400 when the body is empty or lacks email or password, 400 when the email is taken, 500 when the password is not a string or the email is null (a NOT NULL column), otherwise 201 with one new user (role "user", no family, the hashed password) under the next id; emails stay unique and present, and nothing else changes |
| BackendApp.App.AddTransaction | backend/app.py:187-231 | as evidently intended, with the body's category and member stored as given: 500 without a body, 400 with a required field missing, the conversion error of the amount and then of the date, 500 for a null type or category (NOT NULL columns); 201 exactly when all pass, appending one row owned by the caller under the next id, with `''` and `false` for an absent description and recurrence; nothing changes otherwise |
| BackendApp.App.UpdateTransaction | backend/app.py:233-283 | as evidently intended, with the body's category and member stored as given: 500 for an unknown id, 403 for another user's row, 400 for an empty body, the conversion error of a bad field, 500 for a patch that makes the type or category null; otherwise 200 and only that row changes, to the patched record; a failure leaves the table as it was |
| BackendApp.App.ApplyPatch | backend/app.py:248-262 | the field-by-field assignments, stopped by the first conversion that raises, give exactly the patched record |
| BackendApp.App.DeleteTransaction | backend/app.py:285-302 | 500 for an unknown id and 403 for another user's row, both leaving the table as it was; otherwise 200 and exactly that row is removed |
| BackendApp.App.Dashboard | backend/app.py:305-333 | income and expenses are the sums of the caller's rows of each type, and the balance is their difference |
| BackendApp.App.FamilyDashboard | backend/app.py:335-364 | the family figures are computed from the caller's own rows, so they equal the personal dashboard's |
| BackendApp.App.SaveMonthlyPlan | backend/app.py:392-422 | 400 and nothing stored without data; otherwise 200, creating the caller's plan with defaults or overwriting the fields the body has, and reading it back gives the earlier view merged with the body |
| BackendApp.AddStatusAsWritten | backend/app.py:190-231 | as written against the Transaction model: 500 without a body, 400 with a required field missing, the conversion error of the amount and then of the date, and 500 for every body that passes them, so no add ever answers 201 |
| BackendApp.UpdateOwnRowAsWritten | backend/app.py:243-283 | as written, on the caller's own row: never 200; 400 for an empty body; a body with a category keeps the row as it was; one without a category whose conversions pass is committed (without the member, which no column stores) and still answered 500, unless it makes the type null, which the commit refuses |
| BackendApp.UpdateAsWrittenKeepsFailedChange | backend/app.py:250-283 | as written, a body that only changes the type is answered 500, while the row keeps the new type unless that type is null |
| BackendStore.Get | backend/app.py:408-416 | `data.get(key, default)`: the body's value when the key is present (even a null), else the default |
| BackendStore.ToFloat | backend/app.py:203 | `float(v)`: a number as it is, a string through the parser (failing with `ValueError`), and a `TypeError` exactly for null, lists and objects |
| BackendStore.ToDate | backend/app.py:206 | `strptime(v, '%Y-%m-%d')` succeeds exactly on a string the parser reads, and raises a `TypeError` exactly on a non-string |
| BackendStore.FindUser | backend/routes/monthly_plans.py:16 | `User.query.get`: the first user with that id, or -1 when there is none |
| BackendStore.PersonalPlan | backend/routes/monthly_plans.py:23 | `filter_by(user_id, month).first()`: the first plan of that user for that month, or -1 when there is none |
| BackendStore.FamilyPlan | backend/routes/monthly_plans.py:27 | `filter_by(family_id, month).first()`: the first plan of that family for that month, or -1 when there is none |
| BackendStore.MergePlan | backend/routes/monthly_plans.py:125-127 | the owner, family and month are kept; each of the three fields present in the body replaces the stored one, each absent one is kept |
| BackendStore.NewPlan | backend/routes/monthly_plans.py:64-71 | a new plan takes the body's fields, or an empty list, an empty list and an empty note |
| BackendStore.MergeIdempotent | backend/app.py:414-416 | saving the same body twice leaves the plan as saving it once |
| BackendStore.PersonalPlanAppend | backend/app.py:403-412 | a plan found before an insert is still the one found after it, and an inserted plan is found when none matched before |
| BackendStore.PersonalPlanSameKeys | backend/app.py:414-416 | overwriting a plan's fields, which leaves its user and month alone, moves no personal lookup |
| BackendStore.FamilyPlanSameKeys | backend/routes/monthly_plans.py:125-127 | overwriting a plan's fields moves no family lookup |
| BackendStore.PlanIdsAppend | backend/models.py:76-77 | a plan inserted under the next auto-increment id keeps the ids ascending and below the counter |
| BackendStore.PlanIdsReplace | backend/models.py:76-77 | rewriting a plan under its own id keeps the ids ascending |
| BackendStore.PlanIdsWithout | backend/models.py:76-77 | deleting a plan keeps the ids ascending |
| PlanRoutes.MonthlyPlanToDict | backend/routes/monthly_plans.py:157-167 | no dictionary for no plan; otherwise id, month, the two lists and the notes of the plan, and a family plan exactly when it has a family id |
| PlanRoutes.Respond | backend/routes/monthly_plans.py:29-39 | an error is sent as its status; a plan is sent through `monthly_plan_to_dict` with the handler's status; a month without a plan gets the empty structure with 200 |
| PlanRoutes.RespondAsWritten | backend/routes/monthly_plans.py:39 | `monthly_plan.to_dict()` raises on every plan, so every outcome with a plan is answered 500; errors and empty months are answered as intended |
| PlanRoutes.AsWrittenLosesEveryPlan | backend/routes/monthly_plans.py:39 | the serialisation as written departs from the intended one exactly on the outcomes that carry a plan |
| PlanRoutes.Lookup | backend/routes/monthly_plans.py:22-27 | the user's own plan for the month when there is one; else, for a user with a (non-zero) family id, the family's first plan for the month; else none |
| PlanRoutes.DeleteLeavesNoPersonalPlan | backend/routes/monthly_plans.py:146-152 | deleting the user's only plan for the month leaves no personal plan for it and keeps one plan per user and month |
| PlanRoutes.AppendPlan | backend/routes/monthly_plans.py:58-74 | a plan for a user and month without one keeps one plan per user and month, and is what the lookup then finds |
| PlanRoutes.ReplacePlan | backend/routes/monthly_plans.py:123-127 | overwriting the plan the lookup found keeps one plan per user and month, and the lookup still finds it |
| PlanRoutes.Service.constructor | backend/models.py:76-84 | the plan table starts empty with the id counter at 1 |
| PlanRoutes.Service.Get | backend/routes/monthly_plans.py:11-43 | 401 for an unknown user; the plan the lookup finds, with 200; otherwise the empty structure, marked a family plan exactly when the user has a family id |
| PlanRoutes.Service.Create | backend/routes/monthly_plans.py:45-81 | 401 for an unknown user, 400 when the user already has a plan for the month, 500 without a body; otherwise 201 with one new plan carrying the user's family id, which a get then returns; nothing changes on an error |
| PlanRoutes.Service.Update | backend/routes/monthly_plans.py:83-138 | 401 for an unknown user, 500 without a body; otherwise 200, the plan a get would find (own, else family) has the body's fields overwritten, or a new plan is inserted, and a get then returns exactly the plan written |
| PlanRoutes.Service.Delete | backend/routes/monthly_plans.py:140-154 | 404 and nothing changes without a personal plan; otherwise 200, exactly that plan is removed, and a get then falls back on the family's plan |
| FamilyStats.Property | frontend/src/components/FamilyDashboard.jsx:97 | a property is undefined exactly when the record has no entry under that name |
| FamilyStats.PropertyBump | frontend/src/components/FamilyDashboard.jsx:97 | `rec[name] += amount` changes only the named property: a defined one gains the amount, an undefined one becomes NaN |
| FamilyStats.NewRecordProperty | frontend/src/components/FamilyDashboard.jsx:92-95 | a new record has exactly `income` and `expenses`, both 0 |
| FamilyStats.RecordProperty | frontend/src/components/FamilyDashboard.jsx:91-97 | as written, a member's `income` and `expenses` hold the totals of the member's transactions typed exactly "income" and "expenses", and every other type the member has becomes a NaN property of its own |
| FamilyStats.FixedRecord | frontend/src/components/FamilyDashboard.jsx:91-97 | keyed as the chart expects, a member's record keeps exactly its two properties: `income` the member's income, `expenses` all the member's other amounts |
| FamilyStats.AddContribution | frontend/src/components/FamilyDashboard.jsx:91-97 | one member step is exactly one step of the contributions grouping: a new member starts from the zero record and the amount goes under the transaction's type |
| FamilyStats.AddToBreakdown | frontend/src/components/FamilyDashboard.jsx:100-105 | one category step is exactly one step of the category grouping |
| FamilyStats.PartialSnoc | frontend/src/components/FamilyDashboard.jsx:80-106 | one more transaction adds income to `totalIncome` and anything else to `totalExpenses`, updates its member's record, and only an "expense" updates the category breakdown |
| FamilyStats.UpdateStats | frontend/src/components/FamilyDashboard.jsx:81-105 | the loop body takes the statistics of the transactions seen to those of one more |
| FamilyStats.CalculateFamilyStats | frontend/src/components/FamilyDashboard.jsx:72-109 | the loop computes exactly the reference statistics: the income total, the total of every other type, the contributions grouped by member and the expenses grouped by category |
| FamilyStats.FamilyTotals | frontend/src/components/FamilyDashboard.jsx:84-88 | the two totals split every amount between them, and the net balance is income less everything else |
| FamilyStats.ContributionsCover | frontend/src/components/FamilyDashboard.jsx:91-97 | every member with a transaction has exactly one record and no one else has one, each record being that member's fold |
| FamilyStats.BreakdownTotals | frontend/src/components/FamilyDashboard.jsx:100-105 | each expense category appears once, with its expense total; income and other types never reach the breakdown |
| FamilyStats.MemberData | frontend/src/components/FamilyDashboard.jsx:146-151 | one bar per member record, in record order, with income, expenses and their difference |
| FamilyStats.MemberBars | frontend/src/components/FamilyDashboard.jsx:146-151 | as written, a member's bar shows the member's income, an `expenses` counting only transactions typed "expenses", and their difference |
| FamilyStats.ExpensesNeverShown | frontend/src/components/FamilyDashboard.jsx:97 | when every transaction is typed "income" or "expense", no member bar ever shows an expense and each balance equals the income |
| FamilyStats.ExpenseMissed | frontend/src/components/FamilyDashboard.jsx:97 | a single positive expense counts in the family's `totalExpenses`, yet its member's only bar shows zero income, zero expenses and a zero balance |
| FamilyStats.FixedBars | frontend/src/components/FamilyDashboard.jsx:146-151 | keyed as intended, each bar shows the member's income, the member's other amounts and their difference, and the two together cover all the member's transactions |
| FamilyStats.CategoryData | frontend/src/components/FamilyDashboard.jsx:154-157 | one slice per breakdown entry, in order, with its name and amount |
| FamilyStats.CategoryBars | frontend/src/components/FamilyDashboard.jsx:153-157 | one slice per expense category, no name twice, each with that category's expense total |
| FamilyStats.GetMemberStats | frontend/src/components/FamilyDashboard.jsx:191-201 | the member's transactions are exactly those carrying the member's user id |
| FamilyStats.MemberStatsTotals | frontend/src/components/FamilyDashboard.jsx:194-199 | the member's income and expense totals count only transactions of that user, "income" and "expense" respectively; other types count in neither |
| Ledger.TotalSnoc | frontend/src/pages/FinanceManager.jsx:294-298 | one more transaction adds its amount to a filtered total exactly when it matches the filter |
| Ledger.TotalConcat | frontend/src/pages/FinanceManager.jsx:294-298 | the filtered total of two lists together is the sum of their totals |
| Ledger.TotalNone | frontend/src/pages/FinanceManager.jsx:294-298 | a filtered total over a list with no matching transaction is 0 |
| Ledger.TotalPartition | frontend/src/pages/FinanceManager.jsx:294-310 | two filters that split every transaction of a third between them split its total |
| Ledger.TotalAgree | frontend/src/pages/FinanceManager.jsx:294-310 | filters that agree on every transaction of the list give the same total |
| Ledger.DatesOf | frontend/src/pages/FinanceManager.jsx:334 | the date of each transaction, in order |
| Ledger.BucketsFor | frontend/src/pages/FinanceManager.jsx:335-342 | one bucket per given date, in that order, holding the date's income total and its total of every other type |
| Ledger.IndexOfDate | frontend/src/pages/FinanceManager.jsx:335 | `timeline[date]`: the position of the date's bucket, or -1 when the date has none |
| Ledger.BuildTimeline | frontend/src/pages/FinanceManager.jsx:331-346 | the one-pass dictionary fill followed by the sort by date gives exactly the reference timeline |
| Ledger.AccumulateBuckets | frontend/src/pages/FinanceManager.jsx:333-343 | the dictionary holds one bucket per distinct date, in first-seen order, each with that date's totals |
| Ledger.AddToStep | frontend/src/pages/FinanceManager.jsx:335-342 | adding one transaction to the dictionary agrees with recomputing every bucket with it included |
| Ledger.AddToSeen | frontend/src/pages/FinanceManager.jsx:338-342 | a transaction on a date that has a bucket changes only that bucket |
| Ledger.AddToUnseen | frontend/src/pages/FinanceManager.jsx:335-337 | a transaction on a new date opens that date's bucket at the end |
| Ledger.AddStep | frontend/src/pages/FinanceManager.jsx:338-342 | adding the amount to the income or the expense side of its date's bucket equals recomputing every bucket with the transaction included |
| Ledger.BucketDates | frontend/src/pages/FinanceManager.jsx:345 | the date of each bucket, in order |
| Ledger.TimelineBuckets | frontend/src/pages/FinanceManager.jsx:345 | the timeline is in ascending date order, and each point holds its date's income and non-income totals |
| Ledger.TimelineDates | frontend/src/components/FamilyDashboard.jsx:160-176 | the timeline has a point for exactly the dates that occur, one each |
| Ledger.PermutedDates | frontend/src/pages/FinanceManager.jsx:345 | sorting the buckets keeps the set of their dates |
| Ledger.TimelineSum | frontend/src/pages/FinanceManager.jsx:331-346 | the timeline's points add up to the sum of all amounts: nothing is lost or counted twice |
| Ledger.BucketsSum | frontend/src/pages/FinanceManager.jsx:333-343 | the buckets of distinct dates covering every transaction add up to the total of all amounts |
| Ledger.BucketsSumInDates | frontend/src/pages/FinanceManager.jsx:333-343 | the buckets of distinct dates add up to the total of the transactions on those dates |
| FinanceCharts.ColorOf | frontend/src/pages/FinanceManager.jsx:325 | a category's registered primary colour, or the grey fallback for a category without one |
| FinanceCharts.SlicesOf | frontend/src/pages/FinanceManager.jsx:321-326 | one slice per category entry, in entry order, with name, value and colour |
| FinanceCharts.PrepareCategoryData | frontend/src/pages/FinanceManager.jsx:313-329 | the one-pass accumulation followed by colouring, filtering and sorting gives exactly the reference chart, sorted by descending value |
| FinanceCharts.CategoryValue | frontend/src/pages/FinanceManager.jsx:315-319 | a category's accumulated value is the total of the expenses of that category |
| FinanceCharts.PositiveTotalHasExpense | frontend/src/pages/FinanceManager.jsx:315-319 | a positive expense total for a category means there is an expense of that category |
| FinanceCharts.CategorySlicesFacts | frontend/src/pages/FinanceManager.jsx:314-326 | before filtering, each category with an expense has exactly one entry, carrying its expense total and colour |
| FinanceCharts.ChartSlicesShown | frontend/src/pages/FinanceManager.jsx:327-328 | every slice of the chart is one of the entries and has a positive value |
| FinanceCharts.ChartKeepsPositive | frontend/src/pages/FinanceManager.jsx:327 | every entry with a positive value stays in the chart |
| FinanceCharts.ChartNamesDistinct | frontend/src/pages/FinanceManager.jsx:313-329 | no category appears twice in the chart |
| FinanceCharts.CategoryChartShows | frontend/src/pages/FinanceManager.jsx:313-329 | the chart shows exactly the categories with a positive expense total, once each, with that total and their colour; income never contributes |
| FinanceCharts.RowsOf | frontend/src/pages/FinanceManager.jsx:349-366 | one row per roster member, in roster order, with the member's expense and income totals |
| FinanceCharts.FamilyData | frontend/src/pages/FinanceManager.jsx:348-368 | one bar for each roster entry with some expense or income, in roster order, and no other bar: the bars are the rows at the active positions |
| FinanceCharts.OutsiderIgnored | frontend/src/pages/FinanceManager.jsx:351-357 | a transaction attributed to someone outside the roster changes no bar |
| FinanceCharts.IndexOf | frontend/src/pages/FinanceManager.jsx:406 | `indexOf`: the first position of the name, or -1 when it is absent |
| FinanceCharts.DayIndex | frontend/src/pages/FinanceManager.jsx:397-406 | a day's place in the Sunday-first week, or -1 for a name outside it |
| FinanceCharts.DayIndexOfName | frontend/src/pages/FinanceManager.jsx:375-406 | every weekday name sorts to its own place in the week |
| FinanceCharts.AveragesOf | frontend/src/pages/FinanceManager.jsx:389-395 | one bar per weekday record: its average (0 with no expense), total and count |
| FinanceCharts.PrepareDailyAverages | frontend/src/pages/FinanceManager.jsx:370-408 | the one-pass fill, averaging and weekday sort give exactly the reference bars |
| FinanceCharts.DailyValue | frontend/src/pages/FinanceManager.jsx:374-387 | a weekday's record holds the total and the number of the expenses dated on that weekday |
| FinanceCharts.DayEntryReports | frontend/src/pages/FinanceManager.jsx:389-395 | each record, before sorting, reports on its own weekday |
| FinanceCharts.DayEntriesReport | frontend/src/pages/FinanceManager.jsx:389-395 | every record before sorting reports on a weekday |
| FinanceCharts.DayEntriesDistinct | frontend/src/pages/FinanceManager.jsx:379-381 | no weekday has two records |
| FinanceCharts.DayEntriesCover | frontend/src/pages/FinanceManager.jsx:379-381 | every transaction's weekday has a record, whatever its type |
| FinanceCharts.Names | frontend/src/pages/FinanceManager.jsx:391 | the weekday names of the bars, in order |
| FinanceCharts.DailyBarsReport | frontend/src/pages/FinanceManager.jsx:370-408 | every bar reports the total, count and average of its weekday's expenses |
| FinanceCharts.DailyBarsAscend | frontend/src/pages/FinanceManager.jsx:396-407 | the bars stand strictly in weekday order from Sunday |
| FinanceCharts.DailyBarsCover | frontend/src/pages/FinanceManager.jsx:374-381 | every transaction's weekday has a bar |
| FinanceCharts.DailyAveragesShow | frontend/src/pages/FinanceManager.jsx:370-408 | the chart shows the weekdays on which some transaction falls, each once and strictly in order from Sunday, each with the total, number and average of its expenses |
| FinanceCharts.DailyAveragesAtMostSeven | frontend/src/pages/FinanceManager.jsx:370-408 | there are at most seven bars |
| FinanceCharts.BucketsStep | frontend/src/pages/FinanceManager.jsx:429-457 | for each grouping option, the key is the option's key and a step opens the group with the transaction's icon, appends the transaction and adds its amount |
| FinanceCharts.GroupsOf | frontend/src/pages/FinanceManager.jsx:460 | one group per entry, titled by its key |
| FinanceCharts.GroupTransactions | frontend/src/pages/FinanceManager.jsx:419-461 | the one-pass fill followed by the sort gives exactly the reference groups; with a grouping option they are sorted by descending total |
| FinanceCharts.AddToGroup | frontend/src/pages/FinanceManager.jsx:448-457 | one step of the pass is exactly one step of the grouping, and no group is left empty |
| FinanceCharts.OpenBucket | frontend/src/pages/FinanceManager.jsx:448-455 | a transaction whose key has no group opens one with its icon, holding only it |
| FinanceCharts.ExtendBucket | frontend/src/pages/FinanceManager.jsx:456-457 | a transaction whose key has a group joins it at the end and adds its amount; the icon stays |
| FinanceCharts.BucketValue | frontend/src/pages/FinanceManager.jsx:427-458 | a group holds the transactions of its key in page order, their total, and the icon of the first of them |
| FinanceCharts.FirstIconWins | frontend/src/pages/FinanceManager.jsx:448-457 | for any filling where the opening transaction sets the icon, a group holds its key's transactions, their total and the first one's icon |
| FinanceCharts.GroupEntryGathers | frontend/src/pages/FinanceManager.jsx:427-458 | each group before sorting gathers exactly its key's transactions |
| FinanceCharts.GroupsGather | frontend/src/pages/FinanceManager.jsx:419-461 | each group of a grouped page gathers exactly its key's transactions, with their total |
| FinanceCharts.GroupTitlesDistinct | frontend/src/pages/FinanceManager.jsx:448-455 | no two groups share a title |
| FinanceCharts.GroupEntryOfKey | frontend/src/pages/FinanceManager.jsx:428-457 | before sorting, every transaction is in the group of its key |
| FinanceCharts.EveryTransactionGrouped | frontend/src/pages/FinanceManager.jsx:419-461 | every transaction of the page is in the group of its own key, and a group holds only transactions of its key |
| FinanceCharts.ActivePositions | frontend/src/pages/FinanceManager.jsx:348-368 | the roster positions with some expense or income, ascending, each of them and no other |
| FinanceCharts.FilterAtPositions | frontend/src/pages/FinanceManager.jsx:348-368 | filtering the roster's bars keeps exactly the bars at the active positions, in order |
| FinanceFilters.PeriodStart | frontend/src/pages/FinanceManager.jsx:259-277 | a valid start day exactly for the five preset ranges; none for the custom range and any other value |
| FinanceFilters.RangeKeeps | frontend/src/pages/FinanceManager.jsx:258-291 | as written, a preset range keeps a transaction dated after the start day, and one dated on the start day only for the daily range or at midnight, because the start keeps the current time of day |
| FinanceFilters.DayScale | frontend/src/pages/FinanceManager.jsx:290 | a midnight is at or after another day's midnight plus an offset inside that day exactly when it is a later day, or the same day with a zero offset |
| FinanceFilters.MonthlyDropsFirstDay | frontend/src/pages/FinanceManager.jsx:269-271 | on 15 May 2024 one millisecond past midnight, the monthly view drops an expense dated 1 May 2024 |
| FinanceFilters.PeriodKeeps | frontend/src/pages/FinanceManager.jsx:258-291 | the day-based filter keeps a validly dated transaction exactly when its date is not before the period's first day, at any time of day |
| FinanceFilters.PeriodStarts | frontend/src/pages/FinanceManager.jsx:262-277 | the periods start today, on this week's Sunday, on the first of the month, on the first day of the quarter, and on 1 January |
| FinanceFilters.WeeklyStart | frontend/src/pages/FinanceManager.jsx:266-268 | the week starts on a Sunday, today's weekday number of days back |
| FinanceFilters.SundayOf | frontend/src/pages/FinanceManager.jsx:267 | stepping back `getDay()` days from any day lands on a Sunday |
| FinanceFilters.MonthlyStart | frontend/src/pages/FinanceManager.jsx:269-271 | the month starts on its first day |
| FinanceFilters.QuarterlyStart | frontend/src/pages/FinanceManager.jsx:272-274 | the quarter starts on the first day of January, April, July or October, the one whose quarter holds today |
| FinanceFilters.YearlyStart | frontend/src/pages/FinanceManager.jsx:275-277 | the year starts on 1 January |
| FinanceFilters.BalanceStep | frontend/src/pages/FinanceManager.jsx:294-298 | one more transaction moves the balance card up by an income, down by an expense, and not at all for any other type |
| FinanceFilters.MemberTotalSplits | frontend/src/pages/FinanceManager.jsx:306-310 | a member's total counts every type: over incomes and expenses it is the member's income plus the member's expenses |
| FinanceFilters.Lower | frontend/src/pages/FinanceManager.jsx:247 | lower-casing of the ASCII capitals: the length is kept, no capital A to Z is left, small letters are kept, and a text without capitals comes back unchanged |
| FinanceFilters.FilterTransactions | frontend/src/pages/FinanceManager.jsx:242-256 | the listed transactions are a permutation of those passing the type filter and the search, ordered newest first |
| FinanceFilters.FilterTransactionsLists | frontend/src/pages/FinanceManager.jsx:244-254 | a transaction is listed exactly when it passes the type filter and matches the search in its category, description, amount or member, ignoring the case of the letters A to Z |
| FinanceFilters.EmptySearchListsType | frontend/src/pages/FinanceManager.jsx:247-253 | an empty search hides nothing: only the type filter applies |
| FinanceFilters.TotalPages | frontend/src/pages/FinanceManager.jsx:412 | the fewest pages of ten that hold every row; none exactly for no rows |
| FinanceFilters.Slice | frontend/src/pages/FinanceManager.jsx:413-416 | `slice` never returns more than the list |
| FinanceFilters.PageInRange | frontend/src/pages/FinanceManager.jsx:413-416 | a page in range shows rows `(page - 1) * 10` up to `page * 10`, and at least one row |
| FinanceFilters.PagesCover | frontend/src/pages/FinanceManager.jsx:411-416 | the pages together show every row once, in order |
| FinanceFilters.PagesPrefix | frontend/src/pages/FinanceManager.jsx:413-416 | the first k pages together show the first k * 10 rows |
| FinanceFilters.PageMovesStayInRange | frontend/src/pages/FinanceManager.jsx:483-493 | from a page in range, the Next and Previous handlers and buttons stay in range and agree with each other |
| FinanceFilters.NextOnEmptyList | frontend/src/pages/FinanceManager.jsx:1386 | on an empty list the Next button goes to page 0, which shows nothing |
| FinanceState.ValidateTransaction | frontend/src/pages/FinanceManager.jsx:224-239 | each error is present exactly when its check fails (amount missing or not positive, no category, no member, no date), and there is no error exactly when the form is complete with a positive amount |
| FinanceState.Record | frontend/src/pages/FinanceManager.jsx:119 | the record added after a valid form carries the new id, the form's type and date, a positive amount, a category and a member, and no user id |
| FinanceState.IdsOf | frontend/src/pages/FinanceManager.jsx:146 | the id of each record, in order |
| FinanceState.ReplaceById | frontend/src/pages/FinanceManager.jsx:145-147 | every record with the edited id becomes the edited record and every other record stays |
| FinanceState.RemoveById | frontend/src/pages/FinanceManager.jsx:165 | exactly the records without that id remain |
| FinanceState.ReplaceKeepsIds | frontend/src/pages/FinanceManager.jsx:145-147 | an edit keeps every id in its place |
| FinanceState.ReplaceIdempotent | frontend/src/pages/FinanceManager.jsx:145-147 | editing twice with the same record is editing once |
| FinanceState.RemoveAbsent | frontend/src/pages/FinanceManager.jsx:165 | deleting an id that is not listed leaves the list as it is |
| FinanceState.RemoveSplits | frontend/src/pages/FinanceManager.jsx:165 | deleting keeps the other records in their order |
| FinanceState.RemoveIdempotent | frontend/src/pages/FinanceManager.jsx:165 | deleting the same id twice is deleting it once |
| FinanceState.TransactionStore.constructor | frontend/src/pages/FinanceManager.jsx:17-46 | no records, a blank form dated today, the dialog closed, no error |
| FinanceState.TransactionStore.HandleAdd | frontend/src/pages/FinanceManager.jsx:111-138 | nothing changes while the form has errors; a failed call records only the error; a successful one appends the record, closes the dialog and resets the form |
| FinanceState.TransactionStore.HandleEdit | frontend/src/pages/FinanceManager.jsx:140-156 | after a successful call the record with the edited id is replaced and every other record stays; a failed call records only the error |
| FinanceState.TransactionStore.HandleDelete | frontend/src/pages/FinanceManager.jsx:158-173 | nothing happens unless confirmed; then a successful call drops the records with that id and a failed one records only the error |
| MonthPlanner.MonthText | frontend/src/components/MonthPlanner.jsx:33 | the selected month as `YYYY-MM` text: seven characters with a dash at index 4 |
| MonthPlanner.FirstOfMonth | frontend/src/components/MonthPlanner.jsx:312 | `selectedMonth + "-01"` is the first day of the month written as a date |
| MonthPlanner.FailureMessage | frontend/src/components/MonthPlanner.jsx:168 | a failure shows the server's or the exception's message when there is one, and never an empty message when the fallback is not empty |
| MonthPlanner.CheckEntry | frontend/src/components/MonthPlanner.jsx:124-136 | a form is accepted exactly when category and amount (and, on a family plan, the member) are filled and the amount parses to a positive number; an incomplete form gets the required-fields message for its plan kind, and a complete one with a bad amount the positive-number message |
| MonthPlanner.NewEntry | frontend/src/components/MonthPlanner.jsx:138-143 | the new entry has the clock's id and the parsed amount, keeps the category, has no date, and has a member exactly on a family plan |
| MonthPlanner.Added | frontend/src/components/MonthPlanner.jsx:145-158 | the entry is appended to the list of its type; the other list, the notes and the plan kind stay |
| MonthPlanner.Removed | frontend/src/components/MonthPlanner.jsx:180-190 | exactly the entries of the list of that type with another id remain; the other list, the notes and the plan kind stay |
| MonthPlanner.AddThenRemove | frontend/src/components/MonthPlanner.jsx:119-204 | removing an entry just added under a fresh id gives the plan back |
| MonthPlanner.PlanEditor.constructor | frontend/src/components/MonthPlanner.jsx:35-57 | an empty personal plan, a blank form, no error, both dialogs closed and nothing loading |
| MonthPlanner.PlanEditor.HandleAddEntry | frontend/src/components/MonthPlanner.jsx:119-174 | a rejected form only sets its error; an accepted one closes its dialog, and only a successful save appends the entry and clears the form, while a failed one keeps plan and form and shows the failure; the operation's loading flag ends off |
| MonthPlanner.PlanEditor.RemoveEntry | frontend/src/components/MonthPlanner.jsx:176-207 | a successful save drops the entries of that id from one list; a failed one keeps the plan and shows the failure; the form and the dialogs stay |
| MonthPlanner.PlanEditor.HandleNotesChange | frontend/src/components/MonthPlanner.jsx:209-226 | the notes take the typed value whether or not the save succeeds; only the error tells the two apart |
| MonthPlanner.OverBudgetMeans | frontend/src/components/MonthPlanner.jsx:229-256 | "Over Budget" shows exactly when the month's expense transactions add up to more than the planned expenses |
| MonthPlanner.AddedEntryVariance | frontend/src/components/MonthPlanner.jsx:229-256 | planning one more entry lowers its side's variance by the entry's amount and leaves the actual totals and the other side |
| MonthPlanner.OtherTypesIgnored | frontend/src/components/MonthPlanner.jsx:240-247 | a transaction that is neither income nor expense changes no total |
| MonthPlanner.Percent | frontend/src/components/MonthPlanner.jsx:306 | zero against a whole that is not positive; otherwise the part as a percentage of the whole |
| MonthPlanner.PercentMeans | frontend/src/components/MonthPlanner.jsx:306 | against a positive whole, 100 percent or more means the part reaches the whole, and 0 percent means the part is 0 |
| MonthPlanner.SavingsProgress | frontend/src/components/MonthPlanner.jsx:298-308 | the goal is 20% of planned income; with no positive goal the progress is 0, and otherwise it reaches 100 exactly when actual income less actual expenses reaches the goal |
| MonthPlanner.FamilyDistribution | frontend/src/components/MonthPlanner.jsx:334-353 | one share per roster member, in roster order, reporting the member: the sum of the planned expenses assigned to the member, the member's spent expenses, spent less planned, and spent as a percentage of planned (0 unless something positive is planned) |
| MonthPlanner.UnassignedPlanNothing | frontend/src/components/MonthPlanner.jsx:336-338 | entries without a member are planned for nobody |
| MonthPlanner.PersonalPlanShares | frontend/src/components/MonthPlanner.jsx:334-353 | when no planned expense names a member, every member's planned share and percentage are 0 and the variance is the member's whole spending |
| MonthPlanner.PlannedItems | frontend/src/components/MonthPlanner.jsx:261-266 | one planned item per expense entry, in order |
| MonthPlanner.SpentItems | frontend/src/components/MonthPlanner.jsx:267-274 | one spent item per transaction, in order |
| MonthPlanner.AccumulateCategories | frontend/src/components/MonthPlanner.jsx:259-275 | the two loops fill the per-category dictionary as the grouping of the planned expenses followed by the expense transactions |
| MonthPlanner.PrepareComparisonData | frontend/src/components/MonthPlanner.jsx:259-276 | the comparison rows the function that ComparisonShows describes |
| MonthPlanner.PrepareCategoryProgress | frontend/src/components/MonthPlanner.jsx:355-385 | the progress rows the function that CategoryProgressShows describes |
| MonthPlanner.PlannedValue | frontend/src/components/MonthPlanner.jsx:261-266 | over planned items alone each category holds its planned amount and nothing spent |
| MonthPlanner.SpentValue | frontend/src/components/MonthPlanner.jsx:267-274 | adding the expense transactions gives each category its expense total on the spent side |
| MonthPlanner.CategoryValue | frontend/src/components/MonthPlanner.jsx:259-276 | each category's value is its planned expenses and its expense transactions' total |
| MonthPlanner.CategoryKeys | frontend/src/components/MonthPlanner.jsx:259-276 | the categories are those planned or spent on, each once |
| MonthPlanner.KeyHasItem | frontend/src/components/MonthPlanner.jsx:259-276 | every category listed is planned or spent on |
| MonthPlanner.ItemHasKey | frontend/src/components/MonthPlanner.jsx:259-276 | every category planned or spent on is listed |
| MonthPlanner.UnplannedIsZero | frontend/src/components/MonthPlanner.jsx:357-365 | a category nobody planned has a planned amount of 0 |
| MonthPlanner.ComparisonShows | frontend/src/components/MonthPlanner.jsx:259-276 | one row per category planned or spent on, none twice, each with its planned expenses and its expense transactions' total |
| MonthPlanner.CategoryProgressShows | frontend/src/components/MonthPlanner.jsx:355-385 | the same categories, each with its planned and spent amounts, its icon, and the spent amount as a percentage of the planned one |
| MonthPlanner.SpentOnlyProgress | frontend/src/components/MonthPlanner.jsx:383 | a category spent on but not planned shows a planned amount of 0 and a progress of 0 |
| MonthPlanner.EntryDates | frontend/src/components/MonthPlanner.jsx:312 | each planned expense's date, or the first of the month when it has none |
| MonthPlanner.TransactionDates | frontend/src/components/MonthPlanner.jsx:313 | each transaction's date as date text |
| MonthPlanner.MonthlyTimeline | frontend/src/components/MonthPlanner.jsx:310-332 | one point per timeline date, in that order |
| MonthPlanner.TimelineDatesAre | frontend/src/components/MonthPlanner.jsx:311-315 | the timeline dates ascend with none twice, and a date is on it exactly when a planned expense or a transaction falls on it |
| MonthPlanner.PlannedOnSnoc | frontend/src/components/MonthPlanner.jsx:318-320 | one more planned entry raises the planned amount of its own date only |
| MonthPlanner.IncomeOffTimelineIgnored | frontend/src/components/MonthPlanner.jsx:311-329 | planned income dated off the timeline leaves the timeline as it was |
| MonthPlanner.ExpenseOnTimeline | frontend/src/components/MonthPlanner.jsx:311-320 | a planned expense puts its date on the timeline and raises that date's planned expense by its amount and no other date's |
| MonthPlanner.MonthDays | frontend/src/components/MonthPlanner.jsx:388 | the month has between 28 and 31 days |
| MonthPlanner.DailyProgress | frontend/src/components/MonthPlanner.jsx:396-401 | one row per day of the month, numbered from 1 |
| MonthPlanner.PrepareDailyProgress | frontend/src/components/MonthPlanner.jsx:387-402 | the loop that sums each day's spending builds exactly the day rows |
| MonthPlanner.BudgetSpreads | frontend/src/components/MonthPlanner.jsx:389 | the day budgets add up to the planned expenses |
| MonthPlanner.DailySnoc | frontend/src/components/MonthPlanner.jsx:391-395 | one more transaction raises the day rows' total by its amount when it is an expense dated on one of the month's days, and otherwise leaves it |
| MonthPlanner.DailySpendingCovers | frontend/src/components/MonthPlanner.jsx:387-402 | when the transactions all fall in the month, the day rows hold every expense exactly once |
| MonthPlanner.PersistAsWritten | frontend/src/components/MonthPlanner.jsx:159-169 | as written every save fails, with a non-empty TypeError message that replaces any fallback text |
| MonthPlanner.PlannedByIsSum | frontend/src/components/MonthPlanner.jsx:336-338 | the running planned sum is the sum of the amounts of exactly the entries assigned to the member |
| MonthPlanner.ShareReports | frontend/src/components/MonthPlanner.jsx:335-352 | one member's share reports that member's planned and spent sums, variance and percentage |
| LocalPlanner.SavedPlanRestores | src/components/MonthPlanner.jsx:47-54 | a plan handed to `onSavePlan` and filed under its month is restored as the same plan |
| LocalPlanner.NewEntry | src/components/MonthPlanner.jsx:106 | the entry keeps the form's category, amount text and member, takes the clock's id, and has no date |
| LocalPlanner.Added | src/components/MonthPlanner.jsx:100-120 | the entry is appended to the list of its type; the other list and the notes stay |
| LocalPlanner.Removed | src/components/MonthPlanner.jsx:139-155 | exactly the entries of the list of that type with another id remain; the other list and the notes stay |
| LocalPlanner.AddThenRemove | src/components/MonthPlanner.jsx:97-163 | removing an entry just added under a fresh id gives the plan back |
| LocalPlanner.LocalPlanEditor.constructor | src/components/MonthPlanner.jsx:34-70 | an empty plan, a blank form, both dialogs closed and nothing saved |
| LocalPlanner.LocalPlanEditor.LoadSavedPlan | src/components/MonthPlanner.jsx:40-62 | a plan stored for the month replaces the state, with missing fields empty; with none stored or unreadable storage nothing changes; nothing is saved |
| LocalPlanner.LocalPlanEditor.HandleNotesChange | src/components/MonthPlanner.jsx:82-95 | the notes take the typed value and the new plan is handed to `onSavePlan` with the month |
| LocalPlanner.LocalPlanEditor.HandleAddEntry | src/components/MonthPlanner.jsx:97-136 | a form missing its category, amount or member changes and saves nothing; otherwise the entry joins its list, its dialog closes, the new plan is saved and the form is cleared |
| LocalPlanner.LocalPlanEditor.RemoveEntry | src/components/MonthPlanner.jsx:138-163 | the entries of that id leave one list and the new plan is saved |
| LocalPlanner.EditAndSave | src/components/MonthPlanner.jsx:82-163 | after a remove and a notes change the last save carries the editor's plan |
| LocalPlanner.ParseSumFinite | src/components/MonthPlanner.jsx:201-211 | when every amount parses, the sum is the ordinary sum of the amounts |
| LocalPlanner.ParseSumNaN | src/components/MonthPlanner.jsx:201-211 | one amount that does not parse makes the sum NaN |
| LocalPlanner.ExpenseVariance | src/components/MonthPlanner.jsx:201-231 | with readable amounts the expense variance is the expense total less the planned sum; one unreadable planned expense makes it NaN |
| LocalPlanner.SavingsWithoutIncome | src/components/MonthPlanner.jsx:289-303 | with no income planned the goal is 0 and the progress is an infinity of the savings' sign, or NaN when nothing was saved |
| LocalPlanner.NoGoal | src/components/MonthPlanner.jsx:294-301 | over a zero goal the progress is an infinity of the savings' sign, or NaN |
| LocalPlanner.SavingsWithIncome | src/components/MonthPlanner.jsx:289-303 | with a readable non-zero planned income the goal is a fifth of it and the progress is the savings as a percentage of the goal |
| LocalPlanner.GoalOf | src/components/MonthPlanner.jsx:294-301 | a non-zero finite planned income gives a finite goal and progress |
| LocalPlanner.LoosePercent | src/components/MonthPlanner.jsx:350 | over zero the percentage is an infinity of the part's sign, or 0 for a zero part; over NaN or an infinity it falls back to 0 |
| LocalPlanner.LoosePercentFinite | src/components/MonthPlanner.jsx:350 | over a finite non-zero whole it is the ordinary percentage |
| LocalPlanner.FamilyDistribution | src/components/MonthPlanner.jsx:331-354 | one share per roster member, in roster order, reporting the member: the parsed sum of the entries assigned to the member, the member's spent expenses, spent less planned, and the unguarded percentage, all in JavaScript numbers |
| LocalPlanner.NothingPlannedBy | src/components/MonthPlanner.jsx:333-335 | a member nobody planned for has a planned sum of 0 |
| LocalPlanner.UnplannedMemberShare | src/components/MonthPlanner.jsx:331-354 | a member with nothing planned shows 0 planned, their expense total, and a percentage that is 0 while they spend nothing and an infinity once they spend |
| LocalPlanner.PlannedItems | src/components/MonthPlanner.jsx:360-369 | one planned item per expense entry, in order, with its parsed amount |
| LocalPlanner.SpentItems | src/components/MonthPlanner.jsx:371-386 | one spent item per transaction, in order |
| LocalPlanner.PrepareCategoryProgress | src/components/MonthPlanner.jsx:357-392 | the progress rows the function that CategoryProgressShows describes |
| LocalPlanner.PlannedValue | src/components/MonthPlanner.jsx:360-369 | over planned items alone each category holds its planned sum and nothing spent |
| LocalPlanner.SpentValue | src/components/MonthPlanner.jsx:371-386 | adding the expense transactions gives each category its expense total |
| LocalPlanner.CategoryValue | src/components/MonthPlanner.jsx:357-392 | each category holds its parsed planned sum, its expense total, and no icon |
| LocalPlanner.KeyHasItem | src/components/MonthPlanner.jsx:357-392 | every category listed is planned or spent on |
| LocalPlanner.ItemHasKey | src/components/MonthPlanner.jsx:357-392 | every category planned or spent on is listed |
| LocalPlanner.CategoryKeys | src/components/MonthPlanner.jsx:357-392 | the categories are those planned or spent on, each once |
| LocalPlanner.CategoryProgressShows | src/components/MonthPlanner.jsx:357-392 | one row per category planned or spent on, none twice, each with its planned sum, its expense total, no icon (the lookup reads the object being built) and the unguarded percentage |
| LocalPlanner.UnplannedIsZero | src/components/MonthPlanner.jsx:361-369 | a category nobody planned has a planned sum of 0 |
| LocalPlanner.SpentOnlyProgress | src/components/MonthPlanner.jsx:389-391 | a category spent on but not planned has a planned sum of 0, so its progress is an infinity once anything is spent on it, not 0 |
| LocalPlanner.DatedTexts | src/components/MonthPlanner.jsx:308 | exactly the dates that planned entries carry |
| LocalPlanner.Defined | src/components/MonthPlanner.jsx:309 | each transaction date as a present date |
| LocalPlanner.MonthlyTimeline | src/components/MonthPlanner.jsx:305-328 | one point per timeline date, with that date's planned and actual amounts |
| LocalPlanner.TimelineOrder | src/components/MonthPlanner.jsx:306-311 | the dates ascend with none twice, and only the last may be the absent date, which is there exactly when a planned expense has no date |
| LocalPlanner.TimelineMembers | src/components/MonthPlanner.jsx:306-311 | a date is on the timeline exactly when a planned expense carries it or a transaction falls on it |
| LocalPlanner.UndatedSums | src/components/MonthPlanner.jsx:316-318 | over undated entries the absent date collects the whole planned sum and every real date none |
| LocalPlanner.UndatedPlanTimeline | src/components/MonthPlanner.jsx:305-328 | for a plan made through the add form, the timeline ends in one undated point holding the whole planned income and expenses, and no dated point shows a planned amount |
| LocalPlanner.DailyProgress | src/components/MonthPlanner.jsx:412-417 | one row per day of the month, numbered from 1, each with the day budget |
| LocalPlanner.PrepareDailyProgress | src/components/MonthPlanner.jsx:395-418 | the loop that sums each day's spending builds exactly the day rows |
| LocalPlanner.DailySpendingCovers | src/components/MonthPlanner.jsx:403-417 | when the transactions all fall in the month, the rows hold every expense exactly once |
| LocalPlanner.BudgetSpreads | src/components/MonthPlanner.jsx:401 | with readable amounts every day's budget is finite and the budgets add up to the planned expenses |
| LocalPlanner.EvenSpread | src/components/MonthPlanner.jsx:401 | a month of equal day budgets adds up to the total they divide |
| LocalPlanner.UnreadableBudget | src/components/MonthPlanner.jsx:401-417 | one unreadable planned expense makes every day's budget and variance NaN |
| LocalPlanner.PlannedByIsSum | src/components/MonthPlanner.jsx:333-336 | the running planned sum is the parsed sum, in order, of exactly the entries assigned to the member |
| LocalPlanner.ShareReports | src/components/MonthPlanner.jsx:331-354 | one member's share reports that member's parsed planned sum, spent sum, variance and percentage |
| Calendar.DaysInMonth | src/utils/dateUtils.js:17 | a month has 28 to 31 days: 31 exactly for the long months, and February 29 exactly in a leap year |
| Calendar.Weekday | src/utils/dateUtils.js:12 | `getDay()` is a weekday number from 0 to 6 |
| Calendar.ChronologicalOrder | frontend/src/pages/FinanceManager.jsx:290 | for valid dates comparing the fields in order agrees with comparing the dates as points in time |
| Calendar.Normalize | src/utils/dateUtils.js:16-25 | a month and day set out of range still make a valid date |
| Calendar.NormalizeDayNumber | src/utils/dateUtils.js:16-25 | the date reached is the given day counted from the first of the given month, however far it overflows |
| Calendar.SetDate | src/utils/dateUtils.js:12-16 | `setDate` always yields a valid date |
| Calendar.SetDateDayNumber | src/utils/dateUtils.js:12-16 | `setDate` counts the new day from the first of the date's month |
| Calendar.SetMonth | src/utils/dateUtils.js:17-25 | `setMonth` always yields a valid date |
| Calendar.NormalizeInRange | src/utils/dateUtils.js:20-24 | an in-range month and day give exactly that date |
| Calendar.NormalizeDayZero | src/utils/dateUtils.js:17-25 | day 0 of a month is the last day of the month before |
| Calendar.Digits | src/utils/dateUtils.js:32-33 | a zero-padded field of exactly the given width, all digits |
| Calendar.NumberOfDigits | src/utils/dateUtils.js:32-33 | a padded field reads back as the number it was written from |
| Calendar.ToIsoDate | src/utils/dateUtils.js:32-33 | for years 0 to 9999 the text is ten characters with dashes at indices 4 and 7 |
| Calendar.ParseIsoDate | backend/ai/services.py:35 | a date that parses is a valid date from year 1 on |
| Calendar.MonthField | backend/ai/services.py:35 | a month field that parses is 1 to 12 |
| Calendar.DayField | backend/ai/services.py:35 | a day field that parses is 1 to 31 |
| Calendar.IsoDateRoundTrip | backend/ai/services.py:127 | the YYYY-MM-DD text of a date in years 1 to 9999 parses back to that date |
| Calendar.Decimal | src/utils/dateUtils.js:37-43 | a decimal numeral without leading zeros: one digit exactly below 10, two from 10 to 99 |
| Calendar.DecimalReadsBack | src/utils/dateUtils.js:37-43 | a decimal numeral reads back as its number |
| Calendar.ShortDate | src/utils/dateUtils.js:37-43 | a short date starts with a three-letter month and a space |
| Calendar.MonthOfAbbreviation | src/utils/dateUtils.js:37-43 | a month found by its abbreviation has that abbreviation |
| Calendar.ShortDateReadsBack | src/utils/dateUtils.js:37-43 | a short date reads back as the date it was made from, so two dates share a short date only when they are equal |
| DateRanges.CalculateDateRange | src/utils/dateUtils.js:1-35 | both ends are valid and in order; the daily range and any unknown range type are today alone, and the weekly, monthly, quarterly and yearly ranges are as their predicates describe |
| DateRanges.WeeklyRange | src/utils/dateUtils.js:11-14 | the week starts on the Sunday on or before today and ends on day `start.day + 6` counted from the first of today's month: six days after the Sunday when the Sunday is in today's month, later otherwise |
| DateRanges.WeekEnd | src/utils/dateUtils.js:13 | the end is six days after the start exactly when the start lies in today's month, and later otherwise |
| DateRanges.SundayOnOrBefore | src/utils/dateUtils.js:12 | going back `getDay()` days from any day lands on a Sunday |
| DateRanges.MonthlyRange | src/utils/dateUtils.js:15-18 | the month runs from its first to its last day |
| DateRanges.QuarterlyRange | src/utils/dateUtils.js:19-22 | the quarter runs from the first day of its first month to the last day of its third |
| DateRanges.QuarterStart | src/utils/dateUtils.js:20 | the quarter's first month is January, April, July or October, and today's month lies in its quarter |
| DateRanges.QuarterRange | src/utils/dateUtils.js:20-21 | a quarter's start and end, set by month and day, land on its first and last day |
| DateRanges.YearlyRange | src/utils/dateUtils.js:23-26 | the year runs from 1 January to 31 December |
| DateRanges.RangeTextReadsBack | src/utils/dateUtils.js:31-34 | both ends of a range in years 1 to 9999 read back as the dates they denote |
| DateRanges.WeekOvershoots | src/utils/dateUtils.js:12-13 | when the Sunday lies in the month before today's, the range ends that month's length more than six days after it |
| DateRanges.IntendedWeek | src/utils/dateUtils.js:11-14 | the corrected week: a Sunday at most six days before today, and an end exactly six days after it |
| JsNumber.InfinityOfSign | src/components/MonthPlanner.jsx:301 | a non-zero value over zero gives the infinity of its own sign |
| JsNumber.Neg | src/components/MonthPlanner.jsx:229 | negation keeps finiteness, keeps NaN, and swaps the infinities |
| JsNumber.Add | src/components/MonthPlanner.jsx:203-210 | `+` adds finite values, and gives NaN exactly when an operand is NaN or the two are opposite infinities |
| JsNumber.Sub | src/components/MonthPlanner.jsx:290-293 | `-` subtracts finite values, and a NaN operand gives NaN |
| JsNumber.Mul | src/components/MonthPlanner.jsx:294 | `*` multiplies finite values, and gives NaN exactly when an operand is NaN or an infinity meets zero |
| JsNumber.Div | src/components/MonthPlanner.jsx:301 | `/` divides by a non-zero finite value; a finite value over zero is an infinity of its sign, and NaN arises exactly from a NaN operand, zero over zero, or infinity over infinity |
| JsNumber.OrZero | src/components/MonthPlanner.jsx:350 | the fallback to 0 turns NaN and 0 into 0 and keeps every other number, so the result is never NaN |
| Registry.Lookup | frontend/src/pages/FinanceManager.jsx:436-437 | a category record is found exactly when one is filed under that name, and it is one filed under it |
| Registry.FindMember | frontend/src/pages/FinanceManager.jsx:444 | a member is found exactly when the roster has one of that name, and it is that roster member |
| Groups.Accumulate | frontend/src/components/MonthPlanner.jsx:262-265 | one loop turn creates the element's key at the initial value when it is missing and then updates that key's value, exactly as one step of the reference fold |
| Groups.AccumulateAll | frontend/src/components/MonthPlanner.jsx:261-274 | a forEach over more elements continues the fold of the elements before it; both planner copies fill their per-category objects this way |

## Left out

- Floating point: amounts are exact reals, so the rounding of JavaScript numbers and Python floats, `round(…, 2)` in the allocation and savings results, and `toFixed` are not modelled. JavaScript's negative zero is not modelled either, because no divisor in these screens can be one.
- Currency and date display: `formatCurrency` and `Intl` formatting are left out. The short date that `toLocaleDateString` produces is modelled only as far as the grouping needs it, as a key that names its date.
- Time zones: dates are calendar dates in UTC, the zone in which `new Date("YYYY-MM-DD")` parses a date text and `toISOString` prints one. The local-time `Date` setters are modelled on the same calendar.
- Network and storage: the axios calls, `localStorage`, the retry loop of the plan fetch, polling in the notification bell, the browser `Notification` permission, JWT signing, CORS, mail and logging are left out. Their results enter as parameters.
- React scheduling: the model runs each handler on the state it reads, and batched updates are not modelled. The one stale closure that changes what the user sees, the bell's polling function, is modelled in NotificationBell.Bell.FetchNotifications.
- MonthPlanner.DailyProgress: requires a well-formed `YYYY-MM` selected month. The component computes `NaN` days from a malformed one, which the model does not follow.
- MonthPlanner.MonthlyTimeline: requires a well-formed selected month and valid transaction dates, for the same reason.
- LocalPlanner.DailyProgress: requires a well-formed selected month, for the same reason.
- LocalPlanner.FamilyDistribution: the roster is a parameter. The browser-storage copy imports a constants module that is not part of this model.
- Passwords: length is counted in characters, not in UTF-16 code units as JavaScript counts it.
- BudgetAdvisor.PredictFutureExpenses: `np.polyfit` is not modelled. The fitted slope of each category's month totals is an input, and the model proves the clamp, the horizon and the choice of categories.
- BudgetAdvisor.AnalyzeSpending: only the totals are modelled. `np.mean`, the unusual-transaction detection (`StandardScaler`) and `savings_rate`, which is computed but never used, are left out.
- BudgetAdvisor.GenerateSavingsPlan: `datetime.now()` is replaced by the whole number of days to the target, which is an input; the model divides it by 30 as the source does.
- The assistant's chat (`get_ai_chat_response`) and every language-model call are left out, because the reply comes from an external service.
- Backend login, logout and `get_transactions` are not modelled. Login only compares a bcrypt hash and issues a token, and `get_transactions` only lists rows. The register handler takes the hash as a parameter.
- BackendApp: the JWT identity is an input. The `if not user_id` guards are not modelled, because an identity is always present once `jwt_required` has passed.
- BackendApp: a request body that is not a JSON object is left out. Column type coercion by the database is left out too: values are stored as converted.
- BackendApp.App.AddTransaction: models the handler as evidently intended, storing the body's category and family member as given. Against the `Transaction` model as declared, the constructor raises for every complete body; BackendApp.AddStatusAsWritten states that outcome (see Findings).
- BackendApp.App.UpdateTransaction: models the handler as evidently intended, like AddTransaction. As written, a category in the body fails with 500, the member is never stored, and a committed change is answered 500; BackendApp.UpdateOwnRowAsWritten states that outcome (see Findings).
- PatchWithoutConversions: states the corrected update, in which a body without amount and date cannot fail. As written, such a body still fails with 500 when it carries a category (BackendApp.UpdateOwnRowAsWritten).
- BackendApp.Patch: the same, since it is the corrected update that the evidently intended handler applies.
- BackendApp.App.ApplyPatch: the same as BackendApp.Patch.
- MonthPlanner.PlanEditor.HandleAddEntry: the save's outcome is a parameter and covers the evidently intended call. As written, every save fails (MonthPlanner.PersistAsWritten, see Findings).
- MonthPlanner.PlanEditor.RemoveEntry: the same as HandleAddEntry; as written the failure branch is the one that runs.
- MonthPlanner.PlanEditor.HandleNotesChange: the same as HandleAddEntry; as written only the failure message is shown.
- FinanceFilters.Lower: folds only the letters A to Z. `toLowerCase` also folds other capitals and can change the length ("İ" becomes two code units), which the model does not capture.
- FinanceFilters.FilterTransactions: does not state that records of one day keep their list order, although `Array.prototype.sort` is stable. The contract gives only the date order and the permutation.
- FinanceFilters.FilterTransactionsLists: ignores case only for A to Z, through FinanceFilters.Lower.
- BackendApp: a failed commit is modelled as "tables unchanged". The handlers do not roll back on `ValueError`, but the request's session is discarded.
- BackendApp.App.GetMonthlyPlan: has no contract of its own. `BackendApp.ViewOf` states what it answers.
- PlanRoutes: the blueprint is modelled as its code reads. No `register_blueprint` call for it appears in `backend/app.py`, and the model does not capture whether its routes are served.
- FamilyStats: the bar colours and chart layout are left out.

## Findings

| source | as written | input that shows it | evidently intended | confidence | as-written member | corrected member |
|---|---|---|---|---|---|---|
| frontend/src/pages/FinanceManager.jsx:258-291 | the period start is today with its time of day kept, and the filter compares `new Date(t.date)` (midnight) with it, so the first day of the period drops out | filtering "monthly" on 15 May 2024 at 00:00:00.001 drops an expense dated 2024-05-01 | each period keeps every transaction from its first day on | not executed | FinanceFilters.MonthlyDropsFirstDay | FinanceFilters.PeriodKeeps |
| frontend/src/components/FamilyDashboard.jsx:97 | an amount is added to the property named by its type, and an expense's type `expense` is not the record's `expenses` property | one expense of 50 by a member: the family total shows 50 while the member's bar shows expenses 0 | expenses are added to `expenses`, so the bars add up to the family totals | not executed | FamilyStats.ExpenseMissed | FamilyStats.FixedBars |
| backend/routes/monthly_plans.py:39 | a found plan is answered with `monthly_plan.to_dict()`, which `MonthlyPlan` does not define, so the handler's `except` answers 500 | GET of a month for which the user has a plan | the plan is answered through the module's own `monthly_plan_to_dict` | not executed | PlanRoutes.AsWrittenLosesEveryPlan | PlanRoutes.Respond |
| backend/app.py:200-209 | `add_transaction` hands the `Transaction` constructor `category=` a JSON value, which the `category` relationship of models.py cannot hold, and `family_member=`, which the model does not declare, so the constructor raises and the generic handler answers 500 | POST `{type: "expense", amount: 50, category: "Food", date: "2024-05-01", familyMember: "Anna"}` | a complete, well-typed body is stored and answered 201 | not executed | BackendApp.AddStatusAsWritten | BackendApp.App.AddTransaction |
| backend/app.py:253-283 | `update_transaction` assigns the body's category to the relationship, which raises, and otherwise commits and then answers with the row's Category object, which `jsonify` cannot serialise | PUT `{type: "income"}` on one's own expense: the row becomes income and the answer is 500 | a successful update is answered 200, and a failed one changes nothing | not executed | BackendApp.UpdateOwnRowAsWritten | BackendApp.App.UpdateTransaction |
| frontend/src/components/MonthPlanner.jsx:159-169 | the component calls `api.monthlyPlans`, which the Axios instance of services/api.js does not have, so every save throws a TypeError | adding an expense of 100 for "Rent": the plan stays as it was and the TypeError's message is shown | a save that the server accepts appends the entry | not executed | MonthPlanner.PersistAsWritten | MonthPlanner.PlanEditor.HandleAddEntry |
| src/utils/dateUtils.js:12-13 | the week's end is `setDate(start.getDate() + 6)` on a copy of today, so it counts from the first of today's month even when the Sunday lies in the month before | today Tuesday 1 October 2024: the range runs from 29 September to 4 November | the week ends six days after its Sunday | not executed | DateRanges.WeekOvershoots | DateRanges.IntendedWeek |
| frontend/src/components/ai/AINotificationSystem.jsx:11-26 | the polling interval keeps the `fetchNotifications` of the first render, which compares the reply with the initial empty list | the bell is clicked, clearing the dot, and the next poll returns the same single notice: the dot comes back and a high-priority notice is alerted again | only a reply longer than the list shown counts as new | not executed | NotificationBell.Bell.FetchNotifications | NotificationBell.Bell.FetchNewNotifications |
