# Finance tracker core, modelled in Dafny

This project models the rules of a small personal finance tracker, a
Next.js application where users record income and expense transactions.
Each core file gets its own Dafny module:

- `CreateTransaction` is the create endpoint. It runs an ordered chain of
  guards over the request body (title, amount, category id, type). The
  first failing guard decides the 400 reply. A body that passes is
  normalised into the record that storage receives. Storage is a function
  parameter: it returns the stored row or fails with a message.
- `ChartSeries` is the chart read endpoint. It turns every stored row into
  one point: the calendar day, the amount signed by type, and the category.
- `TransactionList` is the list view's filter. It matches the title
  against the query as a case-insensitive substring, matches the category
  against the selector (the selector "all" matches everything), keeps the
  input order, and shows a "nothing found" message when no row is left.
- `SignupForm` is the sign-up form's date-of-birth check: a whole-years
  age of at least 16.
- `Chart` is the chart toolkit: the container id, the per-theme CSS colour
  variables, the context guard, and the tooltip and legend labels.
- `CategorySearch`, `TransactionBar`, `AppSidebar` and `MainPage` hold the
  components' state. Each is a class whose methods change the fields the
  React handlers change.
- `ChartPie` covers the pie chart: its total, the hover index, the centre
  label and the slice colours.
- `NavUser` covers the account entry: which view is shown, the default
  name and email, the avatar, and the initials.

`Wrappers` (Option, Result), `Text` and `TxKind` (the INCOME/EXPENSE enum)
are shared helpers. `Text` models JavaScript's string operations on
`seq<char>`: ASCII `toLowerCase`/`toUpperCase`, `trim` over ECMAScript's
exact white-space and line-terminator code points, `includes`, `join`,
`split(..)[0]` and a global `replace` of one character.

Inputs the code gets from its environment are parameters of the model:

- the engine's string-to-number conversion;
- the current instant;
- parsing the date-of-birth field into calendar fields;
- the storage create and read calls;
- the chart context.

Behaviours of the code worth noting:

- The create endpoint answers a successful write with status 200, not
  "created". It accepts exactly `INCOME`, `EXPENSE`, `income` and
  `expense`, not every spelling of those words: `Income` is rejected.
- It never checks that an amount is non-negative. A negative amount
  passes, and so does an empty amount string, because `Number("")` is 0;
  `AmountOnlyRejectsNaN` shows both.
- A title that is a number or a boolean makes `title?.trim()` throw, and
  the handler answers that with 500, not 400.
- No per-category aggregation exists in the code. The pie chart only sums
  the slices it is handed (`ChartPie.Total`), so none is modelled.
- The chart read endpoint sorts ascending by date. The other list
  endpoint sorts descending; it is a plain storage read and is not
  modelled.
- An unparseable date of birth is accepted. Every `Date` getter then
  returns NaN, so no comparison in the age guard holds.
  `SignupForm.InvalidDateAccepted` states this. A date input only submits
  "" or a valid date, so in a browser this case does not come up.

## Model

| member | source | states |
|---|---|---|
| `CreateTransaction.ToNumber` | src/components/api/transactions/route.ts:33 | `Number(undefined)` is NaN; `Number(null)`, `Number(false)` and `Number` of a blank string are 0 |
| `CreateTransaction.Validate` | src/components/api/transactions/route.ts:27-68 | an accepted body has a string title that is stored untrimmed, a non-NaN amount and one of the four allowed type strings |
| `CreateTransaction.StoredTypeIsUpper` | src/components/api/transactions/route.ts:65 | each allowed type spelling is stored as its upper-case form; INCOME exactly for "INCOME"/"income" |
| `CreateTransaction.ValidateAcceptsIff` | src/components/api/transactions/route.ts:27-56 | a body is accepted iff the title is a non-blank string, `Number(amount)` is not NaN, the category id is truthy and the type is one of "INCOME", "EXPENSE", "income", "expense" |
| `CreateTransaction.TitleCheckedFirst` | src/components/api/transactions/route.ts:27-32 | a missing or blank title gives 400 "Titlul este obligatoriu.", whatever the other fields hold and whatever storage would do |
| `CreateTransaction.FirstFailureDecides` | src/components/api/transactions/route.ts:33-56 | once the title passes, a NaN amount, then a falsy category id, then a disallowed type decides the error, in that order |
| `CreateTransaction.AmountOnlyRejectsNaN` | src/components/api/transactions/route.ts:33-38 | any JSON number, including a negative one, and the empty string pass the amount guard; a missing amount is NaN |
| `CreateTransaction.RejectedExamples` | src/components/api/transactions/route.ts:39-56 | with a non-blank title and a numeric amount, type "Income" and a missing type are rejected as type errors; category id 0, "", missing or null is rejected as a category error |
| `CreateTransaction.AcceptedRecord` | src/components/api/transactions/route.ts:59-68 | the stored record has amount `Number(amount)`, note `note ?? null`, the given date when truthy or else now, the upper-case type and category `Number(categoryId)` |
| `CreateTransaction.Post` | src/components/api/transactions/route.ts:21-81 | the reply is 400 iff a guard rejected; a body that passes is answered 200 with the row exactly when `create` returns one, and a stored row is returned only then; a non-string, non-missing title is answered 500 with the TypeError |
| `CreateTransaction.NoWriteOnFailure` | src/components/api/transactions/route.ts:27-59 | on any validation failure the reply does not depend on the storage call and is never 200, so no record is created |
| `CreateTransaction.StorageFailureIs500` | src/components/api/transactions/route.ts:74-79 | a failed write gives 500 with the fixed `error` and the storage message as `details` |
| `CreateTransaction.ExpenseFromStrings` | src/components/api/transactions/route.ts:58-71 | a body posted as strings with type "expense" (for example title "Groceries", amount "42.50", category id "1") is stored with the parsed amount and category, type EXPENSE, note null and date now |
| `ChartSeries.Day` | src/app/api/transactions/route.ts:50 | the day is the prefix of the ISO timestamp before its first "T" (all of it when there is none) |
| `ChartSeries.DayOfIso` | src/app/api/transactions/route.ts:50 | for a `toISOString` timestamp the day is its first ten characters |
| `ChartSeries.Points` | src/app/api/transactions/route.ts:49-53 | exactly one point per stored row |
| `ChartSeries.PointsAt` | src/app/api/transactions/route.ts:49-53 | point i has row i's day, `+amount` for INCOME and `-amount` otherwise, and row i's category unchanged |
| `ChartSeries.PointsAppend` | src/app/api/transactions/route.ts:40-49 | the mapping distributes over concatenation, so the points keep the storage order |
| `ChartSeries.SignTellsType` | src/app/api/transactions/route.ts:51 | for a positive amount, the point is positive exactly for income and has the row's magnitude |
| `ChartSeries.SameDayNotMerged` | src/app/api/transactions/route.ts:49-53 | an income and an expense on the same day give two points with the same date and amounts +a and -b |
| `ChartSeries.Get` | src/app/api/transactions/route.ts:38-65 | a failed read gives 500 "Failed to fetch transactions"; a successful one gives 200 with the points of the rows (one per row, as `PointsAt` describes) |
| `TransactionList.Filter` | src/components/ui/TransactionList.tsx:33-46 | every kept transaction matches both the query and the category; never more than the input |
| `TransactionList.FilterIsSubsequence` | src/components/ui/TransactionList.tsx:33-46 | the result is the input with some items removed, relative order preserved |
| `TransactionList.FilterCount` | src/components/ui/TransactionList.tsx:33-46 | a matching transaction is kept exactly as often as it occurs in the input; a non-matching one never |
| `TransactionList.FilterMembership` | src/components/ui/TransactionList.tsx:33-46 | a transaction is in the output iff it is in the input and matches |
| `TransactionList.FilterAppend` | src/components/ui/TransactionList.tsx:33 | filtering a concatenation filters each part in turn |
| `TransactionList.FilterAllMatch` | src/components/ui/TransactionList.tsx:33-46 | when every transaction matches, the list comes back unchanged |
| `TransactionList.FilterIdempotent` | src/components/ui/TransactionList.tsx:33-46 | filtering the output again changes nothing |
| `TransactionList.AllSelectorMatchesEverything` | src/components/ui/TransactionList.tsx:41-43 | a selector equal to "all" in any letter case matches every transaction |
| `TransactionList.CategoryMatchIff` | src/components/ui/TransactionList.tsx:39-43 | otherwise the lower-cased category name must equal the lower-cased selector; a missing category or name counts as "" |
| `TransactionList.EmptyQueryAllIsIdentity` | src/components/ui/TransactionList.tsx:33-46 | the empty query with "all" returns the whole list in order |
| `TransactionList.QueryCaseInsensitive` | src/components/ui/TransactionList.tsx:34-36 | lower-casing the query first changes nothing |
| `TransactionList.Render` | src/components/ui/TransactionList.tsx:48-54 | the card list is shown only for a non-empty filtered result, and it is that result |
| `TransactionList.NoResultsIff` | src/components/ui/TransactionList.tsx:48-54 | the "nothing found" branch is taken exactly when no transaction matches |
| `SignupForm.Age` | src/components/signup-form.tsx:48-53 | the age is the year difference or one less |
| `SignupForm.AgeDecrementIff` | src/components/signup-form.tsx:48-53 | it is one less exactly when today's month is before the birth month, or the same month with an earlier day |
| `SignupForm.AgeAtLeastIff` | src/components/signup-form.tsx:48-54 | the age is at least n iff the n-th birthday falls on or before today |
| `SignupForm.SixteenthBirthday` | src/components/signup-form.tsx:35-54 | on the 16th birthday the age is 16; on the day before, when it is in the same month, 15 |
| `SignupForm.DayBeforeSixteenthAcrossMonth` | src/components/signup-form.tsx:48-53 | for a birthday on the 1st, any day of the month before the 16th birthday (December of the previous year for 1 January) still gives 15 |
| `SignupForm.Submit` | src/components/signup-form.tsx:39-76 | an empty date of birth gives the validation error; a too-young result carries an age below 16; on success `onClose` is called once if given, else never |
| `SignupForm.SubmitAcceptsIff` | src/components/signup-form.tsx:44-75 | for a parseable date, signup succeeds iff the 16th birthday is today or earlier; otherwise the outcome is the under-age error and `onClose` is not called |
| `SignupForm.InvalidDateAccepted` | src/components/signup-form.tsx:45-60 | a non-empty value that is not a date passes the guard, as written |
| `Chart.ChartId` | src/components/ui/chart.tsx:43-44 | the id is "chart-" + `id` when given, else "chart-" + the unique id with every ":" removed and no other character changed |
| `Text.RemoveAllOne` | src/components/ui/chart.tsx:44 | `replace(/:/g, "")` drops a single character exactly when it is ":" |
| `Text.RemoveAllAppend` | src/components/ui/chart.tsx:44 | removal goes piece by piece, so the remaining characters keep their order |
| `Chart.ChartIdKeepsPlainIds` | src/components/ui/chart.tsx:44 | a unique id without ":" is used unchanged |
| `Chart.ColorFor` | src/components/ui/chart.tsx:96-97 | without a theme the entry's base colour is used |
| `Chart.ThemeValueWins` | src/components/ui/chart.tsx:96-98 | a defined theme value, even "", wins over the base colour; "" then gives no line |
| `Chart.Lines` | src/components/ui/chart.tsx:94-101 | at most one line per entry and no empty line |
| `Chart.LinesOfOne` | src/components/ui/chart.tsx:96-100 | an entry gives `  --color-key: colour;` exactly when its colour for the theme is non-empty |
| `Chart.LinesAppend` | src/components/ui/chart.tsx:94-101 | the lines keep configuration order |
| `Chart.StyledEntries` | src/components/ui/chart.tsx:87-89 | a kept entry has a non-empty colour or a theme, and there are never more than in the configuration |
| `Chart.StyledEntriesMembership` | src/components/ui/chart.tsx:87-89 | an entry is kept iff it is in the configuration and has a non-empty colour or a theme |
| `Chart.LinesOfStyled` | src/components/ui/chart.tsx:87-101 | filtering first drops no line: the lines of the kept entries are the lines of the whole configuration, in its order |
| `Chart.ChartStyle` | src/components/ui/chart.tsx:80-107 | nothing is rendered iff no entry of the configuration has a colour or a theme |
| `Chart.ChartStyleShape` | src/components/ui/chart.tsx:92-104 | the CSS is the light block (prefix "") then the dark block (prefix ".dark"), each `prefix [data-chart=id] {\nbody\n}\n`, joined by "\n" |
| `Chart.UseChart` | src/components/ui/chart.tsx:26-29 | it fails exactly when there is no enclosing container, else it yields that container's config |
| `Chart.Lookup` | src/components/ui/chart.tsx:147 | a found entry is the config's entry for that key; a missing key has no entry |
| `Chart.ItemLabel` | src/components/ui/chart.tsx:147 | the label shown is the item's own name unless it is the configured label of the entry keyed by that name |
| `Chart.LookupFinds` | src/components/ui/chart.tsx:147 | with unique keys the lookup finds the key's one entry |
| `Chart.ItemLabelFallback` | src/components/ui/chart.tsx:147 | a configured name shows its config label when it has one, else the item's name |
| `Chart.ItemLabelUnconfigured` | src/components/ui/chart.tsx:187 | a name that is not a key shows as it is |
| `Chart.Tooltip` | src/components/ui/chart.tsx:131-156 | outside a container it fails even when inactive; it renders nothing iff inactive or the payload is missing or empty; otherwise row i shows item i's label (`ItemLabel`) and value |
| `Chart.Legend` | src/components/ui/chart.tsx:169-190 | outside a container it fails; it renders nothing iff the payload is missing or empty; otherwise entry i shows item i's label (`ItemLabel`) and its colour swatch unless `hideIcon` |
| `CategorySearch.FindLabel` | src/components/ui/CategorySearch.tsx:38-40 | a found label is paired with the value in the list; there is no label iff no option has that value |
| `CategorySearch.ValuesDistinct` | src/components/ui/CategorySearch.tsx:17-25 | the seven category values are pairwise distinct |
| `CategorySearch.FindLabelUnique` | src/components/ui/CategorySearch.tsx:38-40 | with distinct values, a value's lookup gives exactly its own label |
| `CategorySearch.MenuLabels` | src/components/ui/CategorySearch.tsx:17-40 | every menu value shows its own label; "all" shows "Toate Categoriile" |
| `CategorySearch.SearchWidget.constructor` | src/components/ui/CategorySearch.tsx:35-36 | the widget starts with an empty term, category "all" and no searches reported |
| `CategorySearch.SearchWidget.SelectedLabel` | src/components/ui/CategorySearch.tsx:38-40 | the button label is the label listed for the selected value, and there is one iff some option has that value |
| `CategorySearch.SearchWidget.InputChange` | src/components/ui/CategorySearch.tsx:52-54 | typing sets the term and reports nothing |
| `CategorySearch.SearchWidget.CategoryChange` | src/components/ui/CategorySearch.tsx:46-50 | choosing sets the category and reports one search with the current term and the new category |
| `CategorySearch.SearchWidget.SearchClick` | src/components/ui/CategorySearch.tsx:42-44 | clicking reports one search with the current term and category and changes no state |
| `CategorySearch.SearchWidget.KeyDown` | src/components/ui/CategorySearch.tsx:76-80 | Enter acts as the search click; any other key does nothing |
| `TransactionBar.QueryCaption` | src/components/TransactionBar.tsx:43 | the summary shows "toate" for an empty query, else the query |
| `TransactionBar.TransactionSearchBar.constructor` | src/components/TransactionBar.tsx:28-52 | the bar starts with "" and "all", so the list shows every transaction |
| `TransactionBar.TransactionSearchBar.HandleSearch` | src/components/TransactionBar.tsx:31-34 | both query and category are replaced by the given values |
| `TransactionBar.TransactionSearchBar.Shown` | src/components/TransactionBar.tsx:48-52 | the list receives the bar's unmodified transactions filtered by the current query and category: an order-preserving subsequence, all matching |
| `TransactionBar.ShownIff` | src/components/TransactionBar.tsx:48-52 | a transaction is listed iff it is one of the bar's transactions and matches the current query and category |
| `TransactionBar.TransactionSearchBar.View` | src/components/TransactionBar.tsx:48-52 | the "nothing found" message is shown iff nothing is listed; otherwise the cards are exactly the listed transactions |
| `TransactionBar.TransactionSearchBar.Type` | src/components/TransactionBar.tsx:38 | typing changes the widget's term only; the list is unchanged |
| `TransactionBar.TransactionSearchBar.ChooseCategory` | src/components/TransactionBar.tsx:31-38 | after a category choice the bar filters by that category and the widget's current term, and the bar's category stays the widget's selection |
| `TransactionBar.TransactionSearchBar.Search` | src/components/TransactionBar.tsx:31-38 | after a search the bar shows the widget's term and category |
| `AppSidebar.Modal` | src/components/sections/app-sidebar.tsx:53-54 | a modal renders nothing while its flag is false, and its content while true |
| `AppSidebar.Sidebar.constructor` | src/components/sections/app-sidebar.tsx:79-80 | both modal flags start false |
| `AppSidebar.Sidebar.CloseLoginModal` | src/components/sections/app-sidebar.tsx:81-86 | clears only the login flag |
| `AppSidebar.Sidebar.CloseSignupModal` | src/components/sections/app-sidebar.tsx:87-89 | clears only the signup flag |
| `AppSidebar.Sidebar.HandleLoginClick` | src/components/sections/app-sidebar.tsx:91-93 | sets only the login flag |
| `AppSidebar.Sidebar.HandleSignupClick` | src/components/sections/app-sidebar.tsx:95-97 | sets only the signup flag |
| `AppSidebar.Sidebar.HandleLoginToSignup` | src/components/sections/app-sidebar.tsx:98-101 | ends with login closed and signup open |
| `AppSidebar.Sidebar.HandleSignupToLogin` | src/components/sections/app-sidebar.tsx:102-105 | ends with signup closed and login open |
| `AppSidebar.BothModalsCanOpen` | src/components/sections/app-sidebar.tsx:91-97 | the flags are independent: a login click and then a signup click leave both open |
| `AppSidebar.SwitchLeavesOneOpen` | src/components/sections/app-sidebar.tsx:98-101 | from any state, switching from login leaves only signup open |
| `ChartPie.ConfigKeysAreBudgetCategories` | src/components/charts/ChartPie.tsx:26-42 | the configured keys are exactly the six budget categories, all upper-case |
| `ChartPie.Total` | src/components/charts/ChartPie.tsx:45-48 | the total of no slices is 0 |
| `ChartPie.TotalAppend` | src/components/charts/ChartPie.tsx:45-48 | the total of a concatenation is the sum of the parts' totals |
| `ChartPie.TotalFirst` | src/components/charts/ChartPie.tsx:45-48 | the left fold counts the first value once, plus the total of the rest |
| `ChartPie.TotalBounds` | src/components/charts/ChartPie.tsx:45-48 | with non-negative values the total is at least every single value |
| `ChartPie.ActiveSlice` | src/components/charts/ChartPie.tsx:76 | a slice is active iff the hover index is set and in range, and it is the slice at that index |
| `ChartPie.SliceLabel` | src/components/charts/ChartPie.tsx:77-79 | a configured name shows its config label, any other name shows itself |
| `ChartPie.ActiveLabel` | src/components/charts/ChartPie.tsx:76-80 | "" when nothing is hovered, else the hovered slice's label |
| `ChartPie.CellFill` | src/components/charts/ChartPie.tsx:111-115 | a configured name gets its config colour, any other name "var(--color-foreground)" |
| `ChartPie.CentreOf` | src/components/charts/ChartPie.tsx:123-148 | the centre shows the total iff no slice is active, else the active slice's label and value |
| `ChartPie.PieChart.constructor` | src/components/charts/ChartPie.tsx:44-48 | the chart starts with nothing hovered, so the centre shows the total of the slices |
| `ChartPie.PieChart.IsHovered` | src/components/charts/ChartPie.tsx:54 | a segment is highlighted iff it is the hovered index |
| `ChartPie.PieChart.MouseEnter` | src/components/charts/ChartPie.tsx:103 | mouse-enter sets the hover index to the segment's index |
| `ChartPie.PieChart.MouseLeave` | src/components/charts/ChartPie.tsx:104 | mouse-leave clears the hover index, and the centre shows the total again |
| `NavUser.SelectView` | src/components/ui/nav-user.tsx:169-197 | "loading" always selects the loading view; the logged-in view needs "authenticated" and a user, and shows that user; otherwise the logged-out view |
| `NavUser.OrDefault` | src/components/ui/nav-user.tsx:52-54 | a present non-empty value is kept; a missing or empty one becomes the fallback |
| `NavUser.DisplayName` | src/components/ui/nav-user.tsx:52 | the user's name when it is non-empty, else "Utilizator"; never empty |
| `NavUser.DisplayEmail` | src/components/ui/nav-user.tsx:53 | the user's email when it is non-empty, else "Fără email"; never empty |
| `NavUser.AvatarSource` | src/components/ui/nav-user.tsx:54 | there is no avatar source iff the image is missing or empty |
| `NavUser.Initials` | src/components/ui/nav-user.tsx:55 | the initials are the upper-cased first two characters (fewer for a shorter name) |
| `NavUser.InitialsOfUser` | src/components/ui/nav-user.tsx:52-55 | the fallback avatar shows one or two characters; "UT" for a user without a name |
| `NavUser.DropdownSide` | src/components/ui/nav-user.tsx:49 | "bottom" exactly on mobile, else "right" |
| `MainPage.TransactionPage.constructor` | src/components/sections/MainPage.tsx:11 | the list starts empty |
| `MainPage.TransactionPage.AddTransaction` | src/components/sections/MainPage.tsx:13-14 | each add appends exactly the submitted record, grows the list by one and leaves the earlier records unchanged |
| `MainPage.AddTwice` | src/components/sections/MainPage.tsx:11-23 | two adds from a fresh page give exactly the two records in submission order |

## Left out

- Storage and HTTP: the Prisma calls, `request.json()` and `NextResponse` are not modelled. Storage is a result parameter; a body that is not a JSON object is left out.
- Request fields that are JSON objects or arrays are left out: a field is undefined, null, a boolean, a number or a string.
- The engine's string-to-number parsing (`Number` on a non-blank string) is a parameter, and so is `new Date(...)` parsing. Time zones and the Date getters are left out: dates are (year, month, day) fields and "now" is a parameter.
- `CreateTransaction.Post`: the TypeError message in `details` for a non-string title is written as V8 words it; other engines word it differently.
- Floating point is not modelled: amounts and totals are exact reals. `toFixed`, `toLocaleString` and `toLocaleDateString` only format output and are left out.
- Case mapping covers only the ASCII letters. Unicode `toLowerCase`/`toUpperCase` (for example "ß" becoming "SS"), and `slice` on UTF-16 code units, are left out.
- `Chart`: configuration order is the entries' listing order. JavaScript's rule that integer-like keys are listed first is left out. Labels are strings, not arbitrary React nodes. Number formatting in tooltips is left out. `Chart.Tooltip`: the header `label` the tooltip shows above its rows (`chart.tsx:143`) is not modelled.
- Toasts, `console.log`, next-auth `signIn`/`signOut`/`useSession`, recharts, JSX rendering, class names and animation are left out.
- The `ChartPie` model takes its slices as given. `MainPage.tsx:21` renders the pie chart without data, and `data.reduce` would then throw; that crash is not modelled.
- The other list endpoint (`GET` in `src/components/api/transactions/route.ts:4-19`) is a plain storage read in descending date order. It is not modelled.
- The cast-only create endpoint in `src/app/api/transactions/route.ts:6-37` is not modelled.
- The add-transaction dialog, the login form, the duplicate search-bar page and the sign-up wrapper are not part of this model.
