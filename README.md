# Tracklytic request handling and tracker rules, in Dafny

Tracklytic is a personal tracker with four tools: habits, attendance, budgets
and expenses. It also has a settings page. Each tool is a Next.js API route
over an owner-scoped table. The route resolves the session, switches on the
body's `action`, checks the body fields for JavaScript truthiness, calls the
store, and answers with an envelope `{ status, data, message, error }`. Beside
the routes sit small pure rules:

- the tracker cards: the current habit bucket, the percentages, the button
  guards and the bodies the buttons post;
- the sidebar: its path lookup and its width classes;
- four zod form schemas.

This project models that core and proves what each piece promises.

- `common.dfy`: the shared pieces.
  - Request body fields (`Absent | Null | Num | Str | Bool`) with `Truthy`.
    A missing field and a JSON `null` are both falsy, but a create that hands
    a `null` counter to the store is refused, while a missing one takes the
    column default.
  - The status codes of `lib/statusCode.ts` and the response envelope.
  - The server period `(month 0..11, year)`.
  - Generic table operations: filter, batch update, count, find, remove.
  - Pairwise-distinct keys.
  - Percentages over `real`.
- `records.dfy`: the stored rows (habits with their buckets, attendance
  trackers, budgets, expenses, users) and the table invariants.
- `habit_route.dfy`, `attendance_route.dfy`, `budget_route.dfy`,
  `expense_route.dfy`: one class per table. Its methods are the route's POST
  and DELETE, each with `modifies this`, and its GET, which only reads the
  table. Their contracts state:
  - the whole new table, for POST and DELETE;
  - the response for every branch;
  - the id invariant, which POST and DELETE keep.

  The attendance POST is modelled with its missing `return`s. A request that
  enters at `updateTotalClass` runs several writes and still answers 400.
- `settings_route.dfy`: the settings GET, a pure lookup.
- `habit_card.dfy`, `attendance_card.dfy`, `budget_card.dfy`: the card rules.
  - The budget card models `parseInt` on the dialog inputs, and that model is
    proved to read back any decimal integer.
  - The attendance and budget cards build the same body datatypes as the
    routes. Lemmas there follow a button press into the table that the
    route's update functions, or the budget route's success branch, write.
- `sidebar.dfy`: the path-to-index lookup, and a class with the three state
  fields that the path effect, the resize handler and the menu clicks assign.
- `zod.dfy` plus one file per schema: each schema is the list of issues it
  reports, each with its path and message.

How the outside world enters the model:

- The session is an `Option<UserId>`.
- The clock is a `Period` parameter.
- The id the store gives a new row is a parameter, which must not be in use.
- `storeFails` says that the store call of the request throws.

Five behaviours of the code are worth stating outright, each with the lemma
or contract that proves it:

- **No clamping.** The habit and the attendance routes add an increment as it
  comes, so a count can pass its goal or go below 0
  (`HabitRoute.AddAchieved`, `HabitRoute.AchievedPassesGoal`,
  `AttendanceRoute.AddTotal`, `AttendanceRoute.AddAttended`).
- **No owner filter on habits.** The habit updates and the habit delete filter
  on the habit id alone, so any signed-in user can change or delete any habit
  whose id they send (`HabitRoute.UpdatesIgnoreOwner`, `HabitRoute.FindHabit`).
- **Every bucket.** A habit update rewrites every bucket of the habit, of every
  period, not only the current one (`HabitRoute.SetGoal`,
  `HabitRoute.AddAchieved`).
- **Several writes per request.** The attendance switch has no `return` after
  a successful write, so one request can perform up to three writes and still
  answer 400 (`AttendanceRoute.FallThroughWrites`).
- **`completed` writes the negation of the payload.** The card sends the
  negation of the current flag, so the route writes the old flag back and the
  row does not change (`AttendanceCard.CompleteKeepsFlag`).

## Model

| member | source | states |
|---|---|---|
| Common.IntColumn | app/api/habit/route.ts:38-41 | a create's integer column: the default for a missing field, the number for a number, and refused (none) for anything else, `null` included |
| Common.FalsyFields | app/api/habit/route.ts:22 | `if (!x)` rejects exactly a missing field, `null`, 0, "" and false |
| Common.Percent | components/attendanceTracker.tsx:90 | the ratio times 100: `p * d == n * 100`, at most 100 when `n <= d`, at least 100 when `n >= d` |
| Common.CappedPercent | components/budgetTracker.tsx:76 | `min(n/d*100, 100)`: never above 100, exactly 100 once `n >= d`, the plain ratio below, non-negative for a non-negative numerator |
| Common.PercentScaled | components/budgetTracker.tsx:76 | the ratio is below, at or above 100 exactly as the numerator is below, at or above the denominator |
| Common.PercentMonotone | components/attendanceTracker.tsx:90 | a larger numerator never gives a smaller percentage |
| Common.CappedPercentMonotone | components/budgetTracker.tsx:76 | the capped percentage is non-decreasing in the numerator |
| Common.MapWhereNoMatch | app/api/attendance/route.ts:72-82 | an `updateMany` whose filter selects no row leaves the table as it was |
| Common.AppendKeepsDistinct | app/api/budget/route.ts:31-37 | adding a row with an unused id keeps ids distinct |
| Common.ReplaceKeepsDistinct | app/api/budget/route.ts:62-70 | rewriting a row in place without changing its id keeps ids distinct |
| Common.RemoveKeepsDistinct | app/api/budget/route.ts:181-186 | deleting a row keeps ids distinct |
| HabitRoute.NewHabit | app/api/habit/route.ts:30-56 | the created habit is owned by the caller, has the body's title and exactly one bucket stamped with the server month and year, holding the body's goal and achieved (0 when absent); a non-string title or a non-numeric counter, `null` included, is refused by the store |
| HabitRoute.SetGoal | app/api/habit/route.ts:80-88 | every bucket of the habit whose id is `habitId`, of any period, gets the new goal; no other habit or field changes; the owner is not consulted; ids and one-bucket-per-period are kept |
| HabitRoute.AddAchieved | app/api/habit/route.ts:112-122 | the increment is added to `achieved` of every bucket of the named habit, unclamped; nothing else changes; the invariants are kept |
| HabitRoute.WithGoal | app/api/habit/route.ts:85-87 | one habit with every bucket's goal replaced and its id, owner, title and periods kept |
| HabitRoute.WithIncrement | app/api/habit/route.ts:117-121 | one habit with the increment on every bucket and nothing else changed |
| HabitRoute.TrackerCount | app/api/habit/route.ts:81-91 | the `count` `updateMany` reports is 0 exactly when the named habit has no bucket, and with unique ids is that habit's number of buckets |
| HabitRoute.OwnedHabits | app/api/habit/route.ts:161-175 | the listed habits are exactly the caller's, each with all of its buckets |
| HabitRoute.FindHabit | app/api/habit/route.ts:205-210 | the row `delete` removes is the one whose id is `habitId`, whoever owns it; none when no id matches |
| HabitRoute.HabitStore.Post | app/api/habit/route.ts:6-145 | no session: 401 and no change. Unknown action: 400 "Invalid request", no change. Otherwise the branch below for the action: its response and its exact new table |
| HabitRoute.HabitStore.PostCreate | app/api/habit/route.ts:21-70 | falsy title: 400; store failure, or a field `NewHabit` refuses (a `null` goal or achieved included): 500; else 201 with the new habit appended and nothing else changed |
| HabitRoute.HabitStore.PostUpdateGoal | app/api/habit/route.ts:71-102 | a falsy goal (including 0) or habit id: 400; store failure or a number or boolean habit id, which the store's validation refuses: 500; else 200 with the count and the table rewritten by `SetGoal` |
| HabitRoute.HabitStore.PostUpdateAchieved | app/api/habit/route.ts:103-136 | only the increment is checked, never the habit id: falsy increment 400; failure, or a number or boolean habit id, 500; else 200 with the count and the table rewritten by `AddAchieved` |
| HabitRoute.HabitStore.Get | app/api/habit/route.ts:147-190 | 401 without a session, 500 on failure, else 200 "Habits fetched successfully" with `OwnedHabits` |
| HabitRoute.HabitStore.Delete | app/api/habit/route.ts:192-225 | 401 and no change without a session; removes the habit with that id whoever owns it and answers 204; no match or failure: 500 and no change |
| HabitRoute.BucketsKeepPeriods | app/api/habit/route.ts:81-122 | a tracker update that keeps ids and bucket periods keeps unique ids and one bucket per period |
| HabitRoute.AppendKeepsBuckets | app/api/habit/route.ts:33-45 | adding a habit with one bucket keeps one bucket per period |
| HabitRoute.RemoveKeepsBuckets | app/api/habit/route.ts:206-210 | deleting a habit keeps one bucket per period for the rest |
| HabitRoute.AchievedPassesGoal | app/api/habit/route.ts:113-122 | a bucket at 10 of 10 goes to 11: the increment is not clamped to the goal |
| HabitRoute.UpdatesIgnoreOwner | app/api/habit/route.ts:81-122 | any user's habit is rewritten by both updates once its id is named |
| AttendanceRoute.EntryPoint | app/api/attendance/route.ts:29-145 | the `case` a request enters at; the default case is entered exactly for an action outside the four names |
| AttendanceRoute.NewTracker | app/api/attendance/route.ts:39-47 | the created tracker is the caller's with the body's title and counters, `completed` false; a wrongly typed field, a `null` counter included, makes the store throw |
| AttendanceRoute.AddTotal | app/api/attendance/route.ts:72-82 | the increment on `totalClass` of the caller's tracker with that id only; unclamped; ids stay unique |
| AttendanceRoute.AddAttended | app/api/attendance/route.ts:101-111 | the increment on `classAttended` of the addressed tracker only; unclamped; ids stay unique |
| AttendanceRoute.SetCompleted | app/api/attendance/route.ts:122-130 | the given flag on `completed` of the addressed tracker only; ids stay unique |
| AttendanceRoute.OwnedTrackers | app/api/attendance/route.ts:163-167 | exactly the caller's trackers |
| AttendanceRoute.FindTracker | app/api/attendance/route.ts:199-203 | the row `delete` removes matches both owner and id; none exactly when no row matches |
| AttendanceRoute.AttendanceStore.Post | app/api/attendance/route.ts:6-146 | the switch with its fall-through. `create`: 400, 500 (also for a `null` counter) or 200 with the row appended. Entering at `updateTotalClass`: a falsy increment answers 400; otherwise the total moves, then the `updateClassAttended` check runs; there a falsy increment answers 400 after the write, and otherwise the attended count moves too. Then `completed` stores `!payload.completed` (true when absent), and `default` answers 400 "Invalid action type". `storeFails` or a `null`, number or boolean `habitId` answers 500 before any write; a wrongly typed attended increment answers 500 after the total was written, and that write stays |
| AttendanceRoute.AttendanceStore.Get | app/api/attendance/route.ts:149-182 | 401, 500, or 200 "All attendance tracker fetched" with exactly the caller's trackers |
| AttendanceRoute.AttendanceStore.Delete | app/api/attendance/route.ts:184-218 | removes only the caller's tracker with that id and answers 204 with no `error` key; no match or failure: 500 with no change |
| AttendanceRoute.UnaddressedUnchanged | app/api/attendance/route.ts:72-130 | a foreign id (and, in the model, an absent one; see "## Left out") makes all three updates leave the table unchanged |
| AttendanceRoute.FallThroughWrites | app/api/attendance/route.ts:62-138 | a request entering at `updateTotalClass` moves both counters and sets the flag on the addressed row and touches no other row |
| ExpenseRoute.NewExpense | app/api/expense/route.ts:31-41 | the created expense has the body's title and amount, the caller as owner and the server's month and year |
| ExpenseRoute.FindExpense | app/api/expense/route.ts:66-70 | the row `update` and `delete` act on matches owner and id; none exactly when no row does |
| ExpenseRoute.CurrentExpenses | app/api/expense/route.ts:113-121 | exactly the caller's expenses of the server's month and year |
| ExpenseRoute.ExpenseStore.Post | app/api/expense/route.ts:6-97 | `create`: 400 unless title and amount are truthy (0 rejected), 500 on failure, else 201 with the stamped row appended. `update`: the same 400 check, 500 on no match or failure, else 200 with only the amount replaced. Unknown action: 400 "Invalid action". No change off the success paths |
| ExpenseRoute.ExpenseStore.Get | app/api/expense/route.ts:99-136 | 401, 500, or 200 with `CurrentExpenses` |
| ExpenseRoute.ExpenseStore.Delete | app/api/expense/route.ts:138-173 | removes the caller's expense with that id and answers 200 with the removed row; no match or failure: 500 with no change |
| ExpenseRoute.CreatedListedThisPeriodOnly | app/api/expense/route.ts:113-121 | an expense created now is listed by a GET in the same period and by none in any other period |
| ExpenseRoute.UpdateKeepsPeriod | app/api/expense/route.ts:65-73 | for every period, the caller's expenses a GET lists after an update are the rows listed before, in the same order, each unchanged or with the new amount: an update never moves an expense into or out of a month |
| Common.KeepReplace | app/api/expense/route.ts:65-73 | rewriting one row with a value the filter judges alike keeps the filtered list row for row |
| BudgetRoute.NewBudget | app/api/budget/route.ts:31-37 | the created budget is the caller's with the body's title and goal (the default when absent) and saving 0; a non-string title or a non-numeric goal, `null` included, is refused by the store |
| BudgetRoute.FindBudget | app/api/budget/route.ts:62-66 | the row an update or delete acts on matches owner and id; none exactly when no row does |
| BudgetRoute.OwnedBudgets | app/api/budget/route.ts:142-145 | exactly the caller's budgets |
| BudgetRoute.TitleTotal | app/api/budget/route.ts:146-148 | the title order compares any two titles |
| BudgetRoute.TitleTransitive | app/api/budget/route.ts:146-148 | the title order is transitive |
| BudgetRoute.TitleReflexive | app/api/budget/route.ts:146-148 | every title is no later than itself |
| BudgetRoute.InsertByTitle | app/api/budget/route.ts:146-148 | inserting a row adds exactly that row |
| BudgetRoute.InsertKeepsSorted | app/api/budget/route.ts:146-148 | inserting into a title-ordered list keeps it ordered |
| BudgetRoute.SortedTail | app/api/budget/route.ts:146-148 | the tail of an ordered list is ordered |
| BudgetRoute.SortedCons | app/api/budget/route.ts:146-148 | a head no later than an ordered list's first row gives an ordered list |
| BudgetRoute.ByTitle | app/api/budget/route.ts:146-148 | `orderBy: { title: "asc" }`: the result is in ascending title order and a permutation of the rows |
| BudgetRoute.SameRows | app/api/budget/route.ts:142-149 | a permutation lists exactly the same rows |
| BudgetRoute.SortedAllPairs | app/api/budget/route.ts:146-148 | in an ordered list every earlier row's title is no later than every later row's |
| BudgetRoute.BudgetStore.Post | app/api/budget/route.ts:6-126 | no session: 401. Unknown action: 400 "Invalid action". Otherwise the branch below for the action, with its exact new table |
| BudgetRoute.BudgetStore.PostCreate | app/api/budget/route.ts:21-51 | falsy title: 400; failure, or a field `NewBudget` refuses (a `null` goal included): 500; else 200 (not 201) with the new budget appended |
| BudgetRoute.BudgetStore.PostUpdateGoal | app/api/budget/route.ts:52-84 | a falsy goal (including 0): 400; no matching row or failure: 500 with no change; else 200 with only that row's goal replaced, whatever its saving |
| BudgetRoute.BudgetStore.PostUpdateSavings | app/api/budget/route.ts:85-117 | a falsy value: 400, so saving is never set to 0; no match or failure: 500; else 200 with the saving replaced, not incremented, and not compared with the goal |
| BudgetRoute.BudgetStore.Get | app/api/budget/route.ts:128-164 | 200 with exactly the caller's budgets, in ascending title order; 401 and 500 otherwise |
| BudgetRoute.BudgetStore.Delete | app/api/budget/route.ts:166-201 | removes the caller's budget with that id and answers 200 with it; no match or failure: 500 with no change |
| BudgetRoute.ForeignBudgetUnreachable | app/api/budget/route.ts:181-186 | a caller who owns no budget matches no row, whatever id it sends |
| SettingsRoute.Project | app/api/settings/route.ts:24-29 | only id, name, email and emailVerified are selected |
| SettingsRoute.ErrorDetails | app/api/settings/route.ts:52 | the error's message, or "Unknown error occurred" for a thrown non-Error |
| SettingsRoute.GetSettings | app/api/settings/route.ts:6-56 | 401 without a session; 500 with the details on failure; 404 "User not found" when no user has the session's id; 200 exactly when one does, with that user's projection |
| SettingsRoute.SettingsOfUser | app/api/settings/route.ts:20-44 | with unique ids the answer carries the one matching user's projection |
| HabitCard.CurrentTracker | components/habitComponent.tsx:24-26 | the first bucket of the current month and year; none exactly when there is no such bucket |
| HabitCard.Progress | components/habitComponent.tsx:28 | 0 with no current bucket, otherwise `min(achieved/goal*100, 100)`: at most 100; stated for a positive goal only (see "## Left out") |
| HabitCard.ProgressMonotone | components/habitComponent.tsx:28 | raising the shown bucket's achieved count never lowers the progress |
| HabitCard.ShownBucket | components/habitComponent.tsx:24-26 | the first bucket of the period is the one shown |
| HabitCard.PlusIgnoresOvershoot | components/habitComponent.tsx:145 | achieved above goal leaves plus enabled: only equality disables it |
| HabitCard.ButtonsKeepRange | components/habitComponent.tsx:132-149 | from inside `[0, goal]` an enabled button lands inside it |
| HabitCard.MinusRequest | components/habitComponent.tsx:135 | minus sends `updateAchieved` for this habit with increment -1 |
| HabitCard.PlusRequest | components/habitComponent.tsx:144 | plus sends `updateAchieved` for this habit with increment +1 |
| HabitCard.GoalRequest | components/habitComponent.tsx:59-65 | the goal dialog sends `updateGoal` for this habit with the new goal |
| HabitCard.ShownAchieved | components/habitComponent.tsx:125 | the shown achieved count, 0 with no current bucket |
| HabitCard.ShownGoal | components/habitComponent.tsx:29 | the shown goal and the dialog's initial goal, 0 with no current bucket |
| HabitCard.NoBucketView | components/habitComponent.tsx:125-145 | with no bucket this period the card shows 0 / 0 and no progress, and both buttons are disabled |
| AttendanceCard.AttendancePercentage | components/attendanceTracker.tsx:90 | `classAttended/totalClass*100` with no cap, for a positive total (see "## Left out") |
| AttendanceCard.PercentageUncapped | components/attendanceTracker.tsx:90 | more classes attended than held shows more than 100 percent |
| AttendanceCard.CounterGuards | components/attendanceTracker.tsx:179-236 | attended-minus is disabled at 0 and attended-plus at the total; total-minus is disabled at 1; total-plus never by value; an enabled attended button stays inside `[0, totalClass]` |
| AttendanceCard.TotalMinusBreaksBound | components/attendanceTracker.tsx:215-219 | with every class attended and more than one held, total-minus is enabled and leaves attended above total |
| AttendanceCard.AttendedMinusRequest | components/attendanceTracker.tsx:175-178 | enters the route at `updateClassAttended` with increment -1 for this tracker |
| AttendanceCard.AttendedPlusRequest | components/attendanceTracker.tsx:192-195 | enters at `updateClassAttended` with increment +1 |
| AttendanceCard.TotalMinusRequest | components/attendanceTracker.tsx:215-218 | enters at `updateTotalClass` with increment -1 |
| AttendanceCard.TotalPlusRequest | components/attendanceTracker.tsx:232-235 | enters at `updateTotalClass` with increment +1 |
| AttendanceCard.CompleteRequest | components/attendanceTracker.tsx:138-141 | the complete dialog sends `!tracker.completed` |
| AttendanceCard.RequestsCarryUnitDeltas | components/attendanceTracker.tsx:175-235 | every counter request carries +1 or -1 in the one field its action reads |
| AttendanceCard.CompleteKeepsFlag | components/attendanceTracker.tsx:138-141 | with the route storing `!completed`, the complete dialog writes back the tracker's own flag: the table is unchanged |
| AttendanceCard.AttendedRequestCompletes | app/api/attendance/route.ts:91-145 | an attended button moves `classAttended` by one and, falling into `completed`, also marks the tracker completed; no other row changes |
| AttendanceCard.TotalRequestStopsAtAttended | app/api/attendance/route.ts:62-99 | a total button's request passes the total check and then fails the attended check; the total write that stays moves only the addressed row's total by one |
| BudgetCard.BudgetPercentage | components/budgetTracker.tsx:76 | `min(saving/goal*100, 100)`: at most 100, exactly 100 once saving reaches goal |
| BudgetCard.PercentageMonotone | components/budgetTracker.tsx:76 | for a fixed goal, more saving never shows less |
| BudgetCard.LeadingSpaces | components/budgetTracker.tsx:156 | the white space `parseInt` skips |
| BudgetCard.TrimStart | components/budgetTracker.tsx:156 | the input without its leading white space |
| BudgetCard.DigitRun | components/budgetTracker.tsx:156 | the longest run of digits at the front |
| BudgetCard.LeadingNumber | components/budgetTracker.tsx:156 | a value exactly when the text starts with a digit |
| BudgetCard.ParseInt | components/budgetTracker.tsx:156 | NaN (none) exactly when no digit follows the leading white space and an optional sign; otherwise the sign applied to the value of the longest digit run there, whatever text follows |
| BudgetCard.ParseIntDecimal | components/budgetTracker.tsx:156 | any integer typed in decimal reads back as itself, whatever non-digit text follows ("12.5" gives 12) |
| BudgetCard.ParseNegative | components/budgetTracker.tsx:156 | a negative decimal reads back as itself |
| BudgetCard.ParseNonNegative | components/budgetTracker.tsx:156 | a non-negative decimal reads back as itself |
| BudgetCard.ParseMinus | components/budgetTracker.tsx:156 | a minus sign before a digit run reads as the negated run |
| BudgetCard.ParseUnsigned | components/budgetTracker.tsx:156 | text starting with a digit reads as its digit run |
| BudgetCard.Serialized | components/budgetTracker.tsx:36-40 | NaN goes out as `null`, which is falsy in the route |
| BudgetCard.SavingsRequest | components/budgetTracker.tsx:34-40 | the savings dialog sends `updateSavings` with the parsed input as `updatedSavingsValue` |
| BudgetCard.GoalRequest | components/budgetTracker.tsx:49-55 | the goal dialog sends `updateGoal` with the parsed input as `updateGoalValue` |
| BudgetCard.SavingsRequestReplaces | components/budgetTracker.tsx:155-157 | typing n sends n itself, a replacement and not a difference |
| BudgetCard.GoalRequestSendsValue | components/budgetTracker.tsx:194-196 | typing a goal n sends n |
| BudgetCard.SavingsRequestStored | components/budgetTracker.tsx:155-157 | typing a nonzero n for an owned budget: the row the savings update writes holds saving n, with its other columns and every other row unchanged |
| BudgetCard.GoalRequestStored | components/budgetTracker.tsx:194-196 | typing a nonzero n for an owned budget: the row the goal update writes holds goal n, with its other columns and every other row unchanged |
| BudgetCard.FalsyInputsRejected | components/budgetTracker.tsx:155-157 | input with no digits, or 0, reaches the route as a falsy field |
| BudgetCard.TripScenario | components/budgetTracker.tsx:76 | a new budget with goal 1000 starts at saving 0 and shows 100 percent at saving 2000 |
| Sidebar.ToolIndex | components/sidebar.tsx:22-36 | habits, attendance, expense, budget and settings map to 0..4, any other path to none |
| Sidebar.PathOf | components/sidebar.tsx:32 | the pathname without its first character |
| Sidebar.MenuOrderMatchesTable | components/sidebar.tsx:59-65 | each menu entry's page is `/` and the tool name its index maps to |
| Sidebar.SidebarState.constructor | components/sidebar.tsx:18-20 | laptop, not collapsed, nothing highlighted |
| Sidebar.SidebarState.OnPath | components/sidebar.tsx:34-38 | a non-empty path sets the highlighted item to its index or none; an empty or missing path leaves it |
| Sidebar.SidebarState.HandleResize | components/sidebar.tsx:41-52 | width >= 1024: laptop, expanded; 768..1023: tablet, collapsed; below 768: mobile, collapsed flag kept |
| Sidebar.SidebarState.Click | components/sidebar.tsx:84 | clicking entry i highlights i |
| Zod.MinLength | lib/schemas/signupSchema.ts:5 | one issue with its message exactly when the string is too short |
| Zod.MaxLength | lib/schemas/signupSchema.ts:6 | one issue with its message exactly when the string is too long |
| Zod.EmailFormat | lib/schemas/signupSchema.ts:8 | one issue exactly when the format check fails |
| SignupSchema.NameIssues | lib/schemas/signupSchema.ts:4-6 | no issue exactly for length 3..30; the too-short and too-long messages exactly when those bounds fail |
| SignupSchema.EmailIssues | lib/schemas/signupSchema.ts:7-10 | no issue exactly for a well-formed email of length 3..50 |
| SignupSchema.PasswordIssues | lib/schemas/signupSchema.ts:11-13 | no issue exactly for length 6..30 |
| SignupSchema.MatchIssues | lib/schemas/signupSchema.ts:16-19 | "Passwords do not match" at `confirmPassword` exactly when the two differ |
| SignupSchema.Issues | lib/schemas/signupSchema.ts:3-19 | the form is accepted exactly when every bound holds and the passwords match; `confirmPassword` has no bound |
| SignupSchema.Boundaries | lib/schemas/signupSchema.ts:5-13 | names of length 3 and 30 pass, 2 and 31 fail; passwords of 6 and 30 pass, 5 and 31 fail |
| LoginSchema.EmailIssues | lib/schemas/loginSchema.ts:4-7 | no issue exactly for a well-formed email of length 5..50; every issue carries "Enter your valid email address" |
| LoginSchema.PasswordIssues | lib/schemas/loginSchema.ts:8-10 | no issue exactly for length 6..50 |
| LoginSchema.Issues | lib/schemas/loginSchema.ts:3-11 | accepted exactly when both fields pass |
| LoginSchema.LongPasswordLoginOnly | lib/schemas/loginSchema.ts:10 | a password of 31..50 characters passes login and fails signup |
| ForgotPasswordSchema.EmailIssues | lib/schemas/forgotPasswordSchema.ts:4-7 | no issue exactly for a well-formed email of length 5..50; too long says "Email your valid email address" |
| ForgotPasswordSchema.SameEmailsAsLogin | lib/schemas/forgotPasswordSchema.ts:4-7 | it accepts exactly the emails the login schema accepts |
| ResetPasswordSchema.PasswordIssues | lib/schemas/resetPasswordSchema.ts:4-6 | no issue exactly for length 6..30; too long says "Password cannot exceed 30 characters " with its trailing space |
| ResetPasswordSchema.SameAsSignup | lib/schemas/resetPasswordSchema.ts:4-6 | it accepts exactly the passwords the signup schema accepts |
| ResetPasswordSchema.Boundaries | lib/schemas/resetPasswordSchema.ts:5-6 | lengths 6 and 30 pass, 5 and 31 fail |

## Left out

- The database and its client library.
  - The store is a class per table.
  - A failing store call is one flag, `storeFails`, that makes the request's store call throw. For the attendance fall-through it fails the first write.
  - The library's dropping of `undefined` filter values is not modelled. A filter compares the body's id field with the row id as given, so an absent id matches no row.
  - The library's type errors on wrongly typed fields are folded into a store failure (500): a non-string title, a non-numeric counter or amount (`null` included), and a `null`, number or boolean id in an `updateMany` filter (`IdRefused`). An `update` or `delete` whose wrongly typed id matches no row also answers 500, as it does when no row has that id.
- Column defaults are not in the repository. The model takes 0 for missing counters, `false` for `completed` and 0 for a budget's saving. A `null` counter is not a missing one: the store refuses it.
- Deleting a habit also drops its buckets. The route stores buckets nested in their habit, so a cascade is assumed.
- Timestamps (`createdAt`, `updatedAt`) and generated ids: the new id is a parameter.
- Malformed JSON bodies. In every POST, and in the DELETEs of the habit, budget and expense routes, `req.json()` runs outside the `try`, so a malformed body makes the handler throw. In the attendance DELETE it runs inside the `try`, after the session check, so a malformed body would answer 500 with that route's own message. The model always takes a parsed body.
- Session resolution (`lib/auth.ts`) and the password-reset mail (`lib/mailSender.ts`): outbound I/O. The session is an `Option<UserId>`.
- Concurrency between requests: each request is one atomic step.
- JavaScript numbers. Counters and amounts are unbounded integers, so fractional amounts are not covered.
- HabitCard.Progress, AttendanceCard.AttendancePercentage, BudgetCard.BudgetPercentage: stated for a positive goal or total only. A zero goal is what `HabitRoute.NewHabit` stores when the create body has no `goal` or sends 0 (the habits page posts `Number(...)` of its goal field, and an empty field gives 0), and a tracker created without counters has a zero total. There the card divides by 0 and shows NaN (or Infinity); the model gives no percentage for such a row.
- The database's title collation. Titles are ordered by character code.
- zod's internals.
  - The email regex is a predicate parameter.
  - Lengths are sequence lengths, not UTF-16 code units.
  - The order in which issues are reported is not claimed.
- BudgetCard.ParseInt: models white space as space, tab, newline and carriage return, not JavaScript's full set. It has no `0x` prefix and no precision loss for long digit runs.
- HabitCard requests: the card posts to `/api/habits` and the route shown is `app/api/habit`. The card's requests are stated on their own and not linked to the route.
- React machinery:
  - query invalidation, toasts, dialogs and pending states beyond the `pending` parameter of the guards;
  - listener registration;
  - `console.log` and `console.error`.
- `components/expenseCard.tsx`, `app/page.tsx`, `app/layout.tsx` and the pages under `app/(tools)` and `app/(auth)`: display only.
