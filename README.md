# Trading demo core, modelled in Dafny

This project models the client-side core of a stock-trading demo written in
React/TypeScript. It covers the following parts of the system:

- **The stock ledger** (`StockLedger`). It holds a fixed catalog of five instruments with
  a case-insensitive symbol search. It keeps an ordered list of positions, one per
  symbol, and a most-recent-first list of transactions. Both are written through to the
  device-local store on every buy and sell.
- **The session** (`SessionManager`). It tracks the current user, a loading flag and the
  stored `user` record. It changes them through `login`, `signup` (with a minimum age of
  15), `updateProfile` (a partial record spread over the user) and `logout`.
- **The forms and dialogs** that drive those two. These are sign-up, profile, login, the
  trade dialog, the stock search box and the holdings table's trade buttons. Each has
  its validation chain, the sanitising inputs for the Aadhaar, PAN and mobile numbers,
  and its submit handler.
- **The derived views.** These are the portfolio totals and gain percentages, the
  per-holding rows, the allocation chart, the report cards (trade counts, volume,
  return, active days) and the activity log's newest-first sorted copy of the history.

Conventions:

- **State.** Objects whose fields the source updates in place (the ledger, the session,
  the store and each form's state) are classes with `modifies` frames. Each handler is
  one atomic step.
- **Values.** Everything the views compute is a function on values. Money is exact
  `real`, quantities are `int`, and dates are `(year, month, day)`.
- **Clock and absent values.** The clock is a parameter: "today", transaction ids and
  timestamps are inputs. `null`, `undefined`, `NaN` and empty date fields are `None`.

One module per file:

| file | module |
|---|---|
| `common.dfy` | `Common` |
| `calendar.dfy` | `Calendar` |
| `records.dfy` | `Records` |
| `ledger.dfy` | `Ledger` |
| `session.dfy` | `Session` |
| `validators.dfy` | `Validators` |
| `signup_form.dfy` | `SignupForm` |
| `profile_form.dfy` | `ProfileForm` |
| `login_form.dfy` | `LoginForm` |
| `trade_dialog.dfy` | `TradeDialog` |
| `stock_search.dfy` | `StockSearch` |
| `summaries.dfy` | `Summaries` |
| `activity_log.dfy` | `ActivityLog` |
| `reports.dfy` | `Reports` |

## Model

| member | source | states |
|---|---|---|
| Common.Includes | components/dashboard/stock-search.tsx:20-24 | `includes` is true exactly when the needle occurs at some index of the haystack |
| Common.IncludesEmpty | components/dashboard/stock-search.tsx:20-24 | every string includes the empty string |
| Common.ToUpperHasNoLower | components/auth/signup-form.tsx:202 | upper-casing leaves no lower-case ASCII letter and changes no other character |
| Common.ToUpperIdempotent | components/auth/signup-form.tsx:202 | upper-casing twice is upper-casing once |
| Common.ToLowerIgnoresCase | contexts/stock-context.tsx:77 | lower-casing an upper-cased string is lower-casing the string, so the search ignores the query's case |
| Common.Trim | components/dashboard/stock-search.tsx:27-28 | `trim` returns the slice of its input that starts after the leading white space, with only white space after it, and neither starts nor ends with white space |
| Common.TrimEmptyIff | components/dashboard/stock-search.tsx:27 | a term trims to nothing exactly when every character is white space |
| Common.BeforeFirst | contexts/auth-context.tsx:74 | `split("@")[0]` is a prefix without '@' that ends at the first '@' or at the end |
| Common.DigitPrefix | components/dashboard/trade-modal.tsx:29 | the longest prefix made of digits |
| Common.ParseInt | components/dashboard/trade-modal.tsx:29 | `parseInt` gives a number exactly when a digit follows the optional sign, and a negative one only after '-' |
| Common.DecimalString | components/dashboard/trade-modal.tsx:29 | the decimal spelling of a natural number is a non-empty digit string |
| Common.DecimalRoundTrip | components/dashboard/trade-modal.tsx:29 | the value of a number's decimal spelling is the number |
| Common.ParseIntOfDecimal | components/dashboard/trade-modal.tsx:29 | `parseInt` reads every decimal spelling back exactly |
| Calendar.Age | contexts/auth-context.tsx:42-53 | `calculateAge` is the difference of the years, or one less |
| Calendar.AgeAtLeast | contexts/auth-context.tsx:42-53 | the age is at least n exactly when the n-th birthday is today or already past |
| Calendar.AgeOnBirthday | contexts/auth-context.tsx:48 | born exactly 15 years ago gives 15; born later in that same year gives 14 |
| Calendar.AgeAntitone | contexts/auth-context.tsx:42-53 | a later birth date never gives a greater age |
| Calendar.AgeOf | contexts/auth-context.tsx:100 | an age exists exactly when a date of birth is given |
| Ledger.FindIgnoringCase | contexts/stock-context.tsx:77 | finds the first entry whose symbol equals the query ignoring case, and none only when no entry matches |
| Ledger.CatalogSymbolsDistinct | contexts/stock-context.tsx:43-49 | no two catalog symbols agree ignoring case |
| Ledger.SearchStockFinds | contexts/stock-context.tsx:76-78 | `searchStock` returns an instrument exactly when it is in the catalog and its symbol matches the query ignoring case |
| Ledger.SearchExamples | contexts/stock-context.tsx:43-49 | "aapl" finds Apple Inc.; "ZZZZ" finds nothing |
| Ledger.IndexOfSymbol | contexts/stock-context.tsx:82 | `find` returns the first position with the symbol, and none exactly when no position has it |
| Ledger.HeldAt | contexts/stock-context.tsx:82 | with one position per symbol, a position's own symbol finds it |
| Ledger.ReplaceSymbolAt | contexts/stock-context.tsx:89-91 | with unique symbols, the `map` replaces exactly the one matching position |
| Ledger.ReplaceSymbolAbsent | contexts/stock-context.tsx:89-91 | the `map` changes nothing when no position matches |
| Ledger.WithoutSymbolAt | contexts/stock-context.tsx:123 | with unique symbols, the `filter` removes exactly the one matching position and keeps the order of the rest |
| Ledger.WithoutSymbolAbsent | contexts/stock-context.tsx:123 | the `filter` changes nothing when no position matches |
| Ledger.Bought | contexts/stock-context.tsx:80-94 | buying a held symbol sets quantity held+q, the weighted average price and current price p, in place; an unheld symbol is appended at p; nothing else changes; positions stay well formed |
| Ledger.Sold | contexts/stock-context.tsx:114-128 | the sell is dropped exactly when less than q is held (no position counts as 0); selling everything removes the position; a partial sell lowers the quantity and sets the current price, keeping the average; positions stay well formed |
| Ledger.HeldAfterBuy | contexts/stock-context.tsx:85-93 | a buy adds q to its symbol's holding and leaves every other symbol's holding as it was |
| Ledger.HeldAfterSell | contexts/stock-context.tsx:116-127 | an accepted sell removes q from its symbol's holding and leaves every other holding as it was |
| Ledger.HeldAfterRemoval | contexts/stock-context.tsx:123 | removing a position zeroes its symbol's holding and keeps the others and their uniqueness |
| Ledger.BuyThenSellAll | contexts/stock-context.tsx:92-123 | buying an unheld symbol and then selling the same quantity restores the positions exactly |
| Ledger.BuyAll | contexts/stock-context.tsx:80-94 | a run of buys keeps the positions well formed |
| Ledger.RepeatedBuys | contexts/stock-context.tsx:87-93 | starting with no position, repeated buys give one appended position with quantity Σq and average price Σ(q·p)/Σq, priced at the last fill |
| Ledger.BlendOfAverage | contexts/stock-context.tsx:87 | blending into an average cost/qty gives the pooled average (cost + q·p)/(qty + q) |
| Ledger.StockLedger.constructor | contexts/stock-context.tsx:57-74 | the ledger starts from the stored lists, or empty lists when the keys are missing |
| Ledger.StockLedger.BuyStock | contexts/stock-context.tsx:80-112 | positions become `Bought(...)`; exactly one buy transaction is prepended; the store then holds both new lists |
| Ledger.StockLedger.SellStock | contexts/stock-context.tsx:114-146 | when less than q is held, nothing changes, including the store; otherwise positions become `Sold(...)`, one sell transaction is prepended and the store holds both new lists |
| Session.LoginUser | contexts/auth-context.tsx:71-75 | the mock user has id "1", the email, and as name the part of the email before the first '@'; nothing else |
| Session.NewAccount | contexts/auth-context.tsx:99-120 | refused exactly when the age is below 15; otherwise every supplied field except the password, plus the computed age |
| Session.NewAccountOfAge | contexts/auth-context.tsx:100-104 | no created account records an age below 15 or has a 15th birthday still ahead |
| Session.Updated | contexts/auth-context.tsx:136-149 | refused exactly when a supplied non-empty date of birth gives an age below 15 |
| Session.UpdatedFields | contexts/auth-context.tsx:136-149 | supplied fields override, unsupplied ones are kept, and the age is recomputed only from a supplied non-empty date of birth |
| Session.UpdatedByNothing | contexts/auth-context.tsx:149 | an empty patch leaves the user unchanged |
| Session.UpdatedTwice | contexts/auth-context.tsx:149 | applying the same patch twice equals applying it once |
| Session.SessionManager.constructor | contexts/auth-context.tsx:55-62 | the session starts with the stored user, or none, and loading ends |
| Session.SessionManager.Login | contexts/auth-context.tsx:64-85 | always succeeds; the user and the stored record become `LoginUser(email)`; loading ends |
| Session.SessionManager.Signup | contexts/auth-context.tsx:87-130 | succeeds exactly when not underage; on success the user and the stored record are the new account, otherwise unchanged; loading ends on both paths |
| Session.SessionManager.UpdateProfile | contexts/auth-context.tsx:132-158 | succeeds exactly when no underage date is supplied; on success the user and the stored record are the patched user, otherwise unchanged; loading ends on both paths |
| Session.SessionManager.Logout | contexts/auth-context.tsx:160-163 | the user becomes none and the stored record is removed, whatever the state before, so a second logout changes nothing |
| Validators.MatchLength | components/auth/signup-form.tsx:35-45 | a pattern of fixed repetitions matches only strings of its own length |
| Validators.AadhaarPatternExact | components/auth/signup-form.tsx:35-37 | `/^\d{12}$/` accepts exactly the strings of twelve digits |
| Validators.PanPatternExact | components/auth/signup-form.tsx:39-41 | `/^[A-Z]{5}[0-9]{4}[A-Z]{1}$/` accepts exactly five capitals, four digits, one capital |
| Validators.MobilePatternExact | components/auth/signup-form.tsx:43-45 | `/^[6-9]\d{9}$/` accepts exactly the ten-digit strings starting with 6 to 9 |
| Validators.Take | components/auth/signup-form.tsx:184 | `slice(0, n)` is a prefix of length at most n, and the whole of a shorter string |
| Validators.KeepDigits | components/auth/signup-form.tsx:184 | `replace(/\D/g, "")` yields only digits, all taken from the input |
| Validators.KeepDigitsOfDigits | components/auth/signup-form.tsx:184 | removing non-digits from digits changes nothing |
| Validators.KeepDigitsConcat | components/auth/signup-form.tsx:184 | removing non-digits works piece by piece, keeping the digits' order |
| Validators.SanitiseDigits | components/auth/signup-form.tsx:184 | the Aadhaar and mobile inputs yield all-digit strings of at most the limit |
| Validators.SanitiseDigitsIdempotent | components/auth/signup-form.tsx:220 | sanitising a sanitised number changes nothing |
| Validators.SanitisedInputsValid | components/auth/signup-form.tsx:220 | a full-length sanitised Aadhaar passes its check; a full-length sanitised mobile number passes exactly when it starts with 6 to 9 |
| Validators.SanitisePan | components/auth/signup-form.tsx:202 | the PAN input yields at most ten characters and no lower-case letter |
| Validators.SanitisePanIdempotent | components/auth/signup-form.tsx:202 | sanitising a sanitised PAN changes nothing |
| Validators.SanitisePanKeeps | components/auth/signup-form.tsx:202 | every character that is not a lower-case letter is kept in place |
| SignupForm.FirstFailure | components/auth/signup-form.tsx:71-115 | no message exactly when every check passes; otherwise the message of the first failing check |
| SignupForm.SignupErrorNoneIff | components/auth/signup-form.tsx:71-115 | the form lets a record through exactly when it is complete, the passwords agree and have at least 6 characters, the three numbers are valid and the age is at least 15 |
| SignupForm.EmptyFieldReportedFirst | components/auth/signup-form.tsx:71-84 | "Please fill in all fields" is reported exactly when some field is empty |
| SignupForm.RequestOf | components/auth/signup-form.tsx:118 | `signup` receives the record's email, password, name and date of birth |
| SignupForm.FormAgreesWithSession | components/auth/signup-form.tsx:111-121 | on the same day, a record the form lets through is accepted by `signup` with the form's computed age |
| SignupForm.SanitisedAadhaarCheck | components/auth/signup-form.tsx:96 | on sanitised input the Aadhaar check reduces to a length check |
| SignupForm.WithText | components/auth/signup-form.tsx:60-62 | typing in a free-text field leaves the numbers and the date as they were, and keeps them sanitised |
| SignupForm.SignupFormState.constructor | components/auth/signup-form.tsx:19-29 | the form starts empty, with India as nationality |
| SignupForm.SignupFormState.InputChange | components/auth/signup-form.tsx:60-62 | one free-text field is replaced |
| SignupForm.SignupFormState.AadhaarInput | components/auth/signup-form.tsx:184 | the Aadhaar field becomes the sanitised input |
| SignupForm.SignupFormState.PanInput | components/auth/signup-form.tsx:202 | the PAN field becomes the sanitised input |
| SignupForm.SignupFormState.MobileInput | components/auth/signup-form.tsx:220 | the mobile field becomes the sanitised input |
| SignupForm.SignupFormState.DateOfBirthInput | components/auth/signup-form.tsx:263 | the date field is replaced |
| SignupForm.SignupFormState.HandleSubmit | components/auth/signup-form.tsx:64-125 | a failing check reports its message and leaves the session untouched; otherwise `signup` gets the record, and a refusal reports "Failed to create account" |
| ProfileForm.TextOr | components/profile/profile-page.tsx:17-23 | `value \|\| fallback`: an absent or empty value reads as the fallback |
| ProfileForm.FormOf | components/profile/profile-page.tsx:16-24 | with no user the form is empty with India as nationality; the nationality is never empty |
| ProfileForm.ProfileError | components/profile/profile-page.tsx:57-89 | save goes ahead exactly when name and email are present, each filled-in number is valid and a filled-in date gives at least 15; an empty name or email is reported first |
| ProfileForm.PatchOf | components/profile/profile-page.tsx:92 | the patch supplies every form field, the date included, and neither id nor age |
| ProfileForm.PageAgreesWithSession | components/profile/profile-page.tsx:83-99 | on the same day, a record the page lets through is accepted by `updateProfile` |
| ProfileForm.SavedFormRoundTrip | components/profile/profile-page.tsx:105-114 | the form read back from the saved user is the saved form |
| ProfileForm.WithText | components/profile/profile-page.tsx:53-55 | `handleInputChange` on a free-text field sets that field to the value and leaves every other field, the numbers and the date included, as it was |
| ProfileForm.WithTextKeepsNumberChecks | components/profile/profile-page.tsx:57-89 | typing a non-empty name or email, or any nationality, into a record the page accepts leaves it accepted |
| ProfileForm.ProfilePage.constructor | components/profile/profile-page.tsx:15-26 | the page opens, not editing, on the current user's record |
| ProfileForm.ProfilePage.ToggleEditing | components/profile/profile-page.tsx:130 | the Edit button flips editing |
| ProfileForm.ProfilePage.InputChange | components/profile/profile-page.tsx:53-55 | typing in the name, email or nationality field replaces that one field |
| ProfileForm.ProfilePage.DateOfBirthInput | components/profile/profile-page.tsx:301 | the date field is replaced and nothing else |
| ProfileForm.ProfilePage.AadhaarInput | components/profile/profile-page.tsx:218 | the Aadhaar field becomes the sanitised input |
| ProfileForm.ProfilePage.PanInput | components/profile/profile-page.tsx:237 | the PAN field becomes the sanitised input |
| ProfileForm.ProfilePage.MobileInput | components/profile/profile-page.tsx:256 | the mobile field becomes the sanitised input |
| ProfileForm.ProfilePage.HandleSave | components/profile/profile-page.tsx:57-103 | a failing check reports its message and leaves the session untouched; otherwise `updateProfile` gets the whole record; success shows the message and leaves editing, and refusal reports the failure |
| ProfileForm.ProfilePage.HandleCancel | components/profile/profile-page.tsx:105-118 | the record goes back to the current user's, editing ends and both messages clear |
| LoginForm.LoginError | components/auth/login-form.tsx:24-37 | the empty-field message exactly when a field is empty; the refusal message exactly when `login` answered false; otherwise no error |
| LoginForm.LoginFormState.constructor | components/auth/login-form.tsx:18-21 | both fields and the error start empty |
| LoginForm.LoginFormState.SetEmail | components/auth/login-form.tsx:59 | the email field is replaced |
| LoginForm.LoginFormState.SetPassword | components/auth/login-form.tsx:78 | the password field is replaced |
| LoginForm.LoginFormState.HandleSubmit | components/auth/login-form.tsx:24-37 | an empty field reports its message and leaves the session untouched; otherwise the user becomes `LoginUser(email)` and the error is empty |
| TradeDialog.MaxSellQuantity | components/dashboard/trade-modal.tsx:25-26 | the held quantity of the symbol, 0 when it is not held |
| TradeDialog.TradeQuantity | components/dashboard/trade-modal.tsx:29-32 | a trade goes ahead exactly when the text parses to a positive number and, for a sell, at most the held quantity |
| TradeDialog.OrderTotal | components/dashboard/trade-modal.tsx:50 | parsed quantity times price, 0 when nothing parses |
| TradeDialog.DisabledIsRejected | components/dashboard/trade-modal.tsx:143-148 | every text that disables the button is also refused by `handleTrade` |
| TradeDialog.EnabledButRejected | components/dashboard/trade-modal.tsx:143-148 | the converse fails: "abc" leaves the button enabled but is refused |
| TradeDialog.DispatchedSellKept | components/dashboard/trade-modal.tsx:25-32 | every sell the dialog dispatches passes the ledger's guard |
| TradeDialog.DecimalQuantityDispatched | components/dashboard/trade-modal.tsx:29-32 | a typed positive decimal quantity within the limit is dispatched as itself |
| TradeDialog.TradeModal.constructor | components/dashboard/trade-modal.tsx:21-22 | the quantity starts empty and nothing is loading |
| TradeDialog.TradeModal.SetQuantity | components/dashboard/trade-modal.tsx:97 | the quantity text is replaced |
| TradeDialog.TradeModal.HandleTrade | components/dashboard/trade-modal.tsx:28-48 | when a guard fails nothing changes; otherwise exactly one buy or sell of the parsed quantity at the instrument's price reaches the ledger and the text is cleared |
| StockSearch.FilteredStocks | components/dashboard/stock-search.tsx:20-24 | an instrument is listed exactly when it is in the catalog and its lower-cased symbol or name contains the lower-cased term |
| StockSearch.FilteredConcat | components/dashboard/stock-search.tsx:20-24 | the filter keeps catalog order |
| StockSearch.FilteredAll | components/dashboard/stock-search.tsx:20-24 | a list whose entries all match passes unchanged |
| StockSearch.EmptyTermListsAll | components/dashboard/stock-search.tsx:20-24 | an empty term lists the whole catalog, in order |
| StockSearch.SearchBox.constructor | components/dashboard/stock-search.tsx:16-17 | the term starts empty with the dropdown hidden |
| StockSearch.SearchBox.OnInput | components/dashboard/stock-search.tsx:52-55 | the term is replaced, and the dropdown shows exactly when it is non-empty |
| StockSearch.SearchBox.HandleSearch | components/dashboard/stock-search.tsx:26-35 | a blank term does nothing; a trimmed term that finds an instrument selects it and resets the box; no match leaves everything unchanged |
| StockSearch.SearchBox.HandleStockSelect | components/dashboard/stock-search.tsx:37-41 | the given instrument is selected and the box resets |
| StockSearch.PaddedTermTrimmed | components/dashboard/stock-search.tsx:27-28 | any white space before and after a term does not change what is looked up |
| Summaries.TotalGainLossIsSum | components/dashboard/portfolio-overview.tsx:11-13 | total value minus total cost is the sum of the per-holding gains (price move times quantity) |
| Summaries.TotalsNonNegative | components/portfolio/portfolio-summary.tsx:11-12 | without negative quantities or prices, total value and total cost are not negative |
| Summaries.GainLossPercent | components/portfolio/portfolio-summary.tsx:14 | 0 when the cost is not positive; otherwise the percentage times the cost is the gain times 100, with the gain's sign |
| Summaries.PositionCount | components/portfolio/portfolio-summary.tsx:41 | the Positions card counts the distinct symbols held |
| Summaries.DistinctSymbolsCounted | components/portfolio/portfolio-summary.tsx:41 | with unique symbols, the list length is the number of symbols |
| Summaries.PositionPercent | components/dashboard/portfolio-overview.tsx:60 | the per-holding percentage exists exactly when the average price is non-zero |
| Summaries.RowOf | components/portfolio/portfolio-table.tsx:44-47 | a row's gain is market value minus cost; its percentage exists exactly when the cost is non-zero; both layouts use this one function |
| Summaries.RowAgreesWithOverview | components/portfolio/portfolio-table.tsx:44-47 | a row's gain is the overview's; for a non-empty holding, its percentage is the overview's |
| Summaries.FindExact | components/portfolio/portfolio-table.tsx:18 | finds an instrument with exactly the symbol, and none exactly when there is none |
| Summaries.HoldingsTable.constructor | components/portfolio/portfolio-table.tsx:13-15 | nothing is selected and no dialog is open |
| Summaries.HoldingsTable.HandleTrade | components/portfolio/portfolio-table.tsx:17-27 | a dialog opens only for a symbol found in the catalog; otherwise nothing changes |
| Summaries.ChartData | components/portfolio/portfolio-chart.tsx:11-17 | one entry per holding, in order, valued at quantity times current price; none with no positions |
| Summaries.ChartTotalIsTotalValue | components/portfolio/portfolio-chart.tsx:11-17 | the chart's total is the portfolio's total value |
| Summaries.Allocation | components/portfolio/portfolio-chart.tsx:75 | an entry's share exists exactly when the chart total is non-zero |
| Summaries.AllocationsSumTo100 | components/portfolio/portfolio-chart.tsx:75 | each share is value over total times 100, and the shares sum to 100 |
| Summaries.SharesScale | components/portfolio/portfolio-chart.tsx:75 | the shares of the first n entries are their values' sum over the total, in percent |
| Summaries.PaletteIndex | components/portfolio/portfolio-chart.tsx:63 | the colour index is inside the six-colour palette and equals i for i < 6 |
| Summaries.PaletteRepeats | components/portfolio/portfolio-chart.tsx:63 | the colours repeat every 6 entries |
| ActivityLog.Insert | components/reports/activity-log.tsx:12 | insertion adds exactly the one transaction and keeps a newest-first list newest first |
| ActivityLog.SortedByTimeDesc | components/reports/activity-log.tsx:12 | the sorted copy is a permutation of the history with non-increasing timestamps |
| ActivityLog.SortedKeepsSorted | components/reports/activity-log.tsx:12 | a history already newest first is shown in its own order |
| ActivityLog.LogShowsStoredOrder | components/reports/activity-log.tsx:12 | when each new transaction is stamped no earlier than the last, the log shows the ledger's stored order |
| ActivityLog.RowTotal | components/reports/activity-log.tsx:93 | a row's total is not negative for non-negative quantity and price, and 0 when either is 0 |
| Reports.CountOf | components/reports/reports-summary.tsx:15-16 | the count of one kind is at most the number of transactions, and 0 exactly when none has that kind |
| Reports.TradesCountEveryTransaction | components/reports/reports-summary.tsx:15-17 | buys plus sells is the number of transactions |
| Reports.VolumeNonNegative | components/reports/reports-summary.tsx:19 | without negative quantities or prices the volume is not negative |
| Reports.ReturnPercent | components/reports/reports-summary.tsx:28 | a zero cost counts as 1; otherwise the return times the cost is the gain times 100 |
| Reports.ReturnAgreesWithSummary | components/reports/reports-summary.tsx:28 | with a positive cost the reports' return is the portfolio summary's percentage |
| Reports.ReturnDiffersWithoutCost | components/reports/reports-summary.tsx:28 | with zero cost and a gain, the summary shows 0% and the reports show gain × 100 |
| Reports.DaysOfTail | components/reports/reports-summary.tsx:48 | the days of a history are the first transaction's day plus the days of the rest |
| Reports.DaysOfBounds | components/reports/reports-summary.tsx:48 | at most one distinct day per transaction, and at least one when there is any |
| Reports.ActiveDays | components/reports/reports-summary.tsx:48 | active days are at most the number of transactions, and at least 1 when there is any |
| Reports.OneDayOneActiveDay | components/reports/reports-summary.tsx:48 | transactions all on one day count as one active day |
| Reports.InsertTotals | components/reports/activity-log.tsx:12 | inserting a transaction adds exactly its share to the counts and the volume |
| Reports.SortedTotals | components/reports/reports-summary.tsx:15-19 | the counts and the volume read the same off the sorted copy as off the stored history |

## Left out

- Storage serialisation: the store keeps records, not JSON text. `JSON.stringify`/`JSON.parse`, malformed saved data and the rehydration of timestamps into `Date` objects are not modelled.
- Ledger.StockLedger.constructor: requires any saved positions to be well formed. They are only ever written by the ledger, but the source does not check them.
- The clock and the time zone: "today", ids and timestamps are parameters. Ids from `Date.now()` are not checked for uniqueness. The calendar day of a timestamp is the `dayOf` parameter of the active-days count.
- Date strings: a date of birth is `Option<Date>`. Parsing `YYYY-MM-DD` and invalid non-empty dates are not modelled. `None` stands for both an absent and an empty date, and for the `NaN` age an empty date yields.
- SignupForm.SignupFormState.HandleSubmit and ProfileForm.ProfilePage.HandleSave: each takes two "today" values, one for the form's age check and one for the session's, because each reads the clock separately. The refusal path is reachable only when the two differ.
- Case mapping is ASCII only. `toLowerCase`/`toUpperCase` on other letters are not modelled.
- Common.ParseInt: models only the decimal reading of `Number.parseInt`. Leading white space, radix prefixes and other inputs are not modelled.
- Common.ParseInt: returns an exact integer. `Number.parseInt` returns a double, so quantities above 2^53 are rounded in the source (the trade dialog's guards and its order total); the model does not round them.
- SignupForm.SignupChecks: the password-length check counts characters, not UTF-16 code units.
- Validators.Take and Validators.SanitisePan: `slice(0, 10)` counts UTF-16 code units; the model counts characters, so a PAN input holding characters outside the Basic Multilingual Plane is cut differently.
- Prices are exact reals rather than doubles. `toFixed` and all display formatting are left out.
- The ledger's `isLoading` flag, which its handlers never change, is left out. So are the dialogs' `onClose`, the success message's `setTimeout` and the simulated latency. Each handler is one atomic step.
- Ledger.StockLedger.BuyStock and Ledger.StockLedger.SellStock: require a positive quantity. The source does not check it; the trade dialog, their only caller, does.
- Session.SessionManager.UpdateProfile: with no user, the patch is spread over a record whose required fields are empty strings. In the source, the missing keys stay absent.
- Session.ProfilePatch: its age cannot be `NaN`, and keys set to `undefined` are not modelled.
- The `catch` branches of the sign-up and profile submit handlers are not modelled. They show the thrown message, but the session methods report failure by their result and never throw.
- Session.SessionManager.Login: never refuses. The `catch` in `login` is reachable only when the browser refuses the storage write (storage full or disabled); the user has then already been set, and `login` returns false. The model's store never refuses a write.
- ActivityLog.SortedByTimeDesc: keeps equal timestamps in input order by construction, like the stable library sort. No lemma states this stability in general.
- Summaries.RowOf and Summaries.PositionPercent: the infinite or `NaN` percentages the source shows for a zero cost or zero average price are `None`.
- Rendering, animation, icons and the UI kit are not modelled.
- The random figures on the stock cards and the profit-and-loss chart are not modelled.
- The settings screens, routing and layout are not modelled.
