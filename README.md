# Calendario-App core, modelled in Dafny

Calendario-App is a small React application for online sellers. It is backed by a hosted
Postgres service. A signed-in seller can:

- keep a catalogue of products;
- record sales of those products;
- see the three best-selling products on the home page;
- plan events on a month calendar;
- answer a four-question segmentation survey.

This project models the logic of the application's components and proves properties of it:

- the aggregation of sales into a top-three ranking;
- the validation and submission of the product, sale and event forms;
- the survey form;
- the month grid and month navigation of the calendar;
- the authentication state machine;
- the login form;
- the event list's delete flow.

Each component becomes a Dafny module. State that a component keeps with `useState`
becomes the fields of a class. Handlers become methods that update those fields. The pure
parts (validation, grouping, sorting, date arithmetic, error classification) are functions
with lemmas about them.

The backend, the clock and the browser are not modelled. What they hand the component
arrives as a method parameter:

- a backend answer is a `Backend` or `Fetch` value (in `Common`). It gives success, an
  error with its message, or a thrown exception;
- today's date is a `YearMonth` or a date string;
- a session is a `SessionUser`.

Files:

- `common.dfy`: `Option`, backend outcomes, string trimming and substring search.
- `types.dfy`: the shared records `User`, `UserFilters`, `Event` and `Product`.
- `home.dfy`: the home page, with the top-three ranking and the product list.
- `sale_modal.dfy`, `product_modal.dfy`, `event_modal.dfy`: the three forms.
- `interest_form.dfy`: the segmentation survey.
- `calendar.dfy`: the Gregorian calendar arithmetic behind the month grid, and the grid itself.
- `auth_context.dfy`: the authentication provider.
- `auth_form.dfy`: the login form.
- `event_list.dfy`: the event list.

## Model

| member | source | states |
|---|---|---|
| Common.TrimStart | src/components/Home/ProductModal.tsx:32 | `trim()` drops a prefix made only of ECMAScript white space and line terminators, every Unicode space separator included, and leaves a string that starts with a non-space |
| Common.TrimEnd | src/components/Home/ProductModal.tsx:32 | `trim()` drops a suffix made only of white space and leaves a string that ends with a non-space |
| Common.BlankIffAllSpace | src/components/Events/EventModal.tsx:39 | `!s.trim()` holds exactly when every character of `s` is white space |
| Common.Trim | src/components/Home/ProductModal.tsx:32 | `s.trim()` is a slice of `s` that neither starts nor ends with white space, with only white space cut off on either side |
| Common.IdeographicSpaceIsBlank | src/components/Home/ProductModal.tsx:32 | a field holding only ideographic or other Unicode spaces is blank, as `trim()` makes it empty |
| Common.Utf16Length | src/components/Auth/AuthForm.tsx:39 | `password.length` counts UTF-16 code units: between the number of characters and twice it |
| Common.Utf16LengthAppend | src/components/Auth/AuthForm.tsx:39 | the code-unit length of a concatenation is the sum of the lengths |
| Common.Utf16LengthIsLengthIffBmp | src/components/Auth/AuthForm.tsx:39 | the code-unit length equals the character count exactly when no character lies outside the Basic Multilingual Plane |
| Common.Contains | src/components/Auth/AuthForm.tsx:68-70 | `includes(sub)` is true exactly when `sub` occurs at some position of the message |
| Home.Ids | src/components/Home/Home.tsx:43-67 | the Map's keys in insertion order: every sale's product id occurs, and none occurs twice |
| Home.Grouped | src/components/Home/Home.tsx:43-67 | one summary per product id, in first-appearance order: the product of its first row, the sum of its quantities and the sum of its amounts |
| Home.InsertBySales | src/components/Home/Home.tsx:71 | inserting one product into the ranking keeps every element (multiset equality) |
| Home.InsertKeepsDescending | src/components/Home/Home.tsx:71 | inserting into a list sorted by units, descending, keeps it sorted |
| Home.SortBySales | src/components/Home/Home.tsx:71 | `sort((a, b) => b.totalSales - a.totalSales)` returns a permutation sorted by units, descending |
| Home.InsertKeepsTies | src/components/Home/Home.tsx:71 | insertion keeps the relative order of products with equal units (stability) |
| Home.SortKeepsTies | src/components/Home/Home.tsx:71 | the sort is stable: for every unit count, the products with that count keep their input order |
| Home.CutKeepsTiePrefix | src/components/Home/Home.tsx:72 | cutting a list keeps, for every unit count, a prefix of the products with that count |
| Home.CutDropsOnlySmaller | src/components/Home/Home.tsx:70-72 | every product the cut to three drops has no more units than any product kept |
| Home.TopThreeIsRanking | src/components/Home/Home.tsx:70-72 | the ranking has min(3, n) entries, is sorted descending, is drawn from the grouped list, beats every dropped product and keeps the order of ties |
| Home.TopThree | src/components/Home/Home.tsx:70-72 | `.sort(...).slice(0, 3)`, whose properties `TopThreeIsRanking` states |
| Home.RankingEmptyIffNoSales | src/components/Home/Home.tsx:220 | the empty-ranking message shows exactly when the query returned no sales rows |
| Home.JoinCompletePrefix | src/components/Home/Home.tsx:48-62 | if every first row of a product carries its joined product, the same holds for every prefix of the rows |
| Home.AbsentHasNoTotals | src/components/Home/Home.tsx:64-66 | a product id that never occurs has zero units and zero revenue |
| Home.SalesMap | src/components/Home/Home.tsx:43-67 | the Map after a prefix of the rows has exactly the product ids of that prefix as keys |
| Home.SalesMapTracks | src/components/Home/Home.tsx:43-67 | every Map entry holds the first-row product, the total units and the total revenue of its product id |
| Home.MapValuesAreGrouped | src/components/Home/Home.tsx:70 | `Array.from(productSales.values())` equals the grouped list |
| Home.GroupSales | src/components/Home/Home.tsx:43-67 | the grouping loop fails exactly when some product's first row has no joined product; otherwise it returns the grouped list |
| Home.AggregateSales | src/components/Home/Home.tsx:43-72 | `salesData` null gives an empty ranking; otherwise the result is the top three of the grouped rows, or a throw when a first row lacks its product |
| Home.IdHasRow | src/components/Home/Home.tsx:48 | every Map key comes from some sales row |
| Home.IntroducesIffNew | src/components/Home/Home.tsx:48 | a row creates a Map entry exactly when its product id has not been seen earlier |
| Home.FirstProductIsFirstRow | src/components/Home/Home.tsx:48-62 | a product's stored info is the joined product of the row that first names it |
| Home.JoinCompleteIffFirstRowsJoined | src/components/Home/Home.tsx:48-62 | the loop cannot throw exactly when every row that introduces a product id carries a joined product |
| Home.EarliestRow | src/components/Home/Home.tsx:48 | every row's product id was introduced by that row or an earlier one |
| Home.ToProducts | src/components/Home/Home.tsx:88-98 | `data?.map(...) \|\| []`: one product per row, field for field, and none when the data is null |
| Home.PlatformIcon | src/components/Home/Home.tsx:106-117 | the fallback icon is returned exactly for the platforms that are not MercadoLibre, Tienda Nube or Shopify |
| Home.PlatformName | src/components/Home/Home.tsx:119-130 | the raw platform string is returned exactly for an unknown platform; mercadolibre, tiendanube and shopify get MercadoLibre, Tienda Nube and Shopify |
| Home.IconAndNameAgree | src/components/Home/Home.tsx:106-130 | a card shows the fallback icon exactly when it shows the raw platform string |
| Home.HomeView.constructor | src/components/Home/Home.tsx:11-15 | no products, an empty ranking, and loading |
| Home.HomeView.ShowsEmptyRanking | src/components/Home/Home.tsx:220 | the no-sales panel replaces the ranking exactly when it is empty; `LoadTopProducts` ties it to the rows |
| Home.HomeView.LoadTopProducts | src/components/Home/Home.tsx:35-78 | a query error leaves the ranking alone; null data empties it; rows that group set it to their top three, and the empty-ranking panel then shows exactly when there were no rows; a thrown grouping leaves it alone |
| Home.HomeView.LoadProducts | src/components/Home/Home.tsx:80-104 | a query error leaves the list alone; otherwise the list becomes the mapped rows |
| Home.HomeView.LoadData | src/components/Home/Home.tsx:21-33 | both loads run, each as above, and loading ends false |
| SaleModal.FindIndex | src/components/Home/SaleModal.tsx:51-55 | `products.find` returns the first product with the id, or nothing when no product has it |
| SaleModal.FindProduct | src/components/Home/SaleModal.tsx:51-55 | the product found is the first in the list with the requested id; none exactly when the id is absent |
| SaleModal.AutoTotal | src/components/Home/SaleModal.tsx:93-103 | price times quantity when the product is found and the parsed quantity is positive, otherwise no total |
| SaleModal.Rejection | src/components/Home/SaleModal.tsx:27-45 | the first failing guard's message, in source order; none exactly when there is a user, a product, a positive quantity and a positive total |
| SaleModal.SentRequestIsValid | src/components/Home/SaleModal.tsx:51-64 | a sale that is sent has a positive quantity and total and the platform of a listed product with that id |
| SaleModal.QuantityOrZero | src/components/Home/SaleModal.tsx:96 | `parseInt(quantity) \|\| 0` for an already parsed input: the number, or 0 for the empty input |
| SaleModal.EmptyFields | src/components/Home/SaleModal.tsx:72-79 | the reset form: no product, quantity 1, no total, today's date, as in the initial state |
| SaleModal.EmptyFormIsRejected | src/components/Home/SaleModal.tsx:27-35 | a fresh or reset sale form cannot be sent without a product being chosen |
| SaleModal.SaleForm.constructor | src/components/Home/SaleModal.tsx:16-21 | empty fields dated today, not loading, no error |
| SaleModal.SaleForm.HandleInputChange | src/components/Home/SaleModal.tsx:88-104 | the named field changes and the error clears; a product or quantity change overwrites the total with the computed one when one exists |
| SaleModal.SaleForm.Submit | src/components/Home/SaleModal.tsx:25-86 | a failed guard only sets its message; an unknown product sets "Producto no encontrado"; otherwise the request carries the form and the product's platform, and success alone resets the form and closes |
| ProductModal.Apply | src/components/Home/ProductModal.tsx:85-89 | the named field takes the new value and every other field is kept |
| ProductModal.Rejection | src/components/Home/ProductModal.tsx:27-45 | the first failing guard's message; none exactly when there is a user, a non-blank name, a positive price and a non-blank platform id |
| ProductModal.BlankNameRejected | src/components/Home/ProductModal.tsx:32-35 | a signed-in user with an all-white-space name is refused with the name message, whatever the other fields hold |
| ProductModal.EmptyFields | src/components/Home/ProductModal.tsx:69-76 | the reset form: every field empty and the platform MercadoLibre, as in the initial state |
| ProductModal.EmptyFormIsRejected | src/components/Home/ProductModal.tsx:27-35 | a fresh or reset product form cannot be sent: its name is empty |
| ProductModal.ProductForm.constructor | src/components/Home/ProductModal.tsx:14-21 | empty fields with MercadoLibre as the platform, not loading, no error |
| ProductModal.ProductForm.HandleInputChange | src/components/Home/ProductModal.tsx:85-89 | the fields become `Apply` of the input and the error clears |
| ProductModal.ProductForm.Submit | src/components/Home/ProductModal.tsx:25-83 | a failed guard only sets its message; otherwise the request carries the form and the user id, and success alone resets the form and closes |
| EventModal.OrElse | src/components/Events/EventModal.tsx:26-27 | `a \|\| b` on strings: `a` unless it is empty |
| EventModal.InitialFields | src/components/Events/EventModal.tsx:23-28 | a new event starts empty on the selected date at 09:00; an edited one starts from its own fields, its date and time falling back likewise |
| EventModal.EditingKeepsStoredFields | src/components/Events/EventModal.tsx:23-28 | editing an event with a date and a time shows exactly its stored fields |
| EventModal.Apply | src/components/Events/EventModal.tsx:82-86 | the named field takes the new value and every other field is kept |
| EventModal.Rejection | src/components/Events/EventModal.tsx:34-47 | none exactly when there is a user and neither title nor description is blank; otherwise the first failing guard's message |
| EventModal.WriteFor | src/components/Events/EventModal.tsx:53-70 | an existing event is updated under its own id; a new one is created with the user as its creator; both carry the form |
| EventModal.FailureMessage | src/components/Events/EventModal.tsx:53-68 | the update message exactly when editing, the create message exactly when creating |
| EventModal.EventForm.constructor | src/components/Events/EventModal.tsx:23-30 | the fields are `InitialFields`, not loading, no error |
| EventModal.EventForm.HandleInputChange | src/components/Events/EventModal.tsx:82-86 | the fields become `Apply` of the input and the error clears |
| EventModal.EventForm.Submit | src/components/Events/EventModal.tsx:32-80 | a failed guard only sets its message; otherwise the write is `WriteFor` the form, and only success calls back |
| InterestForm.NextEnabled | src/components/UserSegmentation/InterestForm.tsx:140-142 | the next button is enabled exactly when the current answer is not blank and nothing is loading |
| InterestForm.StepValid | src/components/UserSegmentation/InterestForm.tsx:140-142 | `isStepValid`: the current answer is not blank after trimming |
| InterestForm.AllAnswered | src/components/UserSegmentation/InterestForm.tsx:86 | `answers.every(...)`: no answer is blank after trimming |
| InterestForm.AllAnsweredIffEveryStepValid | src/components/UserSegmentation/InterestForm.tsx:86 | all answers are given exactly when every step would pass `isStepValid` |
| InterestForm.FiltersOf | src/components/UserSegmentation/InterestForm.tsx:103-108 | answer i goes to column question_(i+1); `FiltersRoundTrip` proves it inverse to `AnswersOf` |
| InterestForm.AnswersOf | src/components/UserSegmentation/InterestForm.tsx:103-108 | the four filter fields, read back as four answers |
| InterestForm.FiltersRoundTrip | src/components/UserSegmentation/InterestForm.tsx:103-108 | answers to filters to answers, and filters to answers to filters, are both the identity |
| InterestForm.SaveErrorMessage | src/components/UserSegmentation/InterestForm.tsx:114-118 | the save error is the fixed prefix followed by the backend's message, or by "Error desconocido" when that is empty |
| InterestForm.Rejection | src/components/UserSegmentation/InterestForm.tsx:80-90 | none exactly when there is a user and every answer is non-blank; otherwise the first failing guard's message |
| InterestForm.Segmented | src/components/UserSegmentation/InterestForm.tsx:123-129 | the updated user keeps its identity and carries the answers as filters, marked as segmented |
| InterestForm.SurveyForm.constructor | src/components/UserSegmentation/InterestForm.tsx:9-12 | step 0, four empty answers, not loading, no error |
| InterestForm.SurveyForm.HandleOptionSelect | src/components/UserSegmentation/InterestForm.tsx:64-69 | only the current step's answer changes; the step is valid afterwards exactly when the option is not blank |
| InterestForm.SurveyForm.HandleNext | src/components/UserSegmentation/InterestForm.tsx:71-77 | before the last step it advances one step and changes nothing else; on the last step it stays and has exactly the effect of `Submit` on the error, loading and the updated user |
| InterestForm.SurveyForm.Submit | src/components/UserSegmentation/InterestForm.tsx:79-138 | a failed guard only sets its message; an empty user id is refused; otherwise only success yields the segmented user; a failure or a throw sets its message |
| Calendar.DaysInMonth | src/components/Calendar/Calendar.tsx:43-44 | months have 28 to 31 days; February has 29 exactly in leap years and 28 otherwise |
| Calendar.IsLeapYear | src/components/Calendar/Calendar.tsx:43-44 | the Gregorian rule behind the length of February that `Date` computes |
| Calendar.LeapYearExamples | src/components/Calendar/Calendar.tsx:43-44 | 2000 and 2024 are leap years, 1900 and 2023 are not |
| Calendar.YearLength | src/components/Calendar/Calendar.tsx:39-60 | the months of a year add up to 366 days in a leap year and 365 otherwise |
| Calendar.LeapYearsStep | src/components/Calendar/Calendar.tsx:43-44 | the count of leap years before a year grows by one exactly across a leap year |
| Calendar.FirstWeekday | src/components/Calendar/Calendar.tsx:42-45 | `getDay()` of the 1st is a weekday 0..6 |
| Calendar.KnownFirstWeekdays | src/components/Calendar/Calendar.tsx:42-45 | 1 January 1970 is a Thursday, 1 January 2024 a Monday, 1 March 2024 a Friday |
| Calendar.MonthIndexInjective | src/components/Calendar/Calendar.tsx:62-72 | two valid months with the same running index are the same month |
| Calendar.Step | src/components/Calendar/Calendar.tsx:62-72 | one month back or forward gives a valid month whose running index moves by exactly one |
| Calendar.StepsCancel | src/components/Calendar/Calendar.tsx:62-72 | next then previous, and previous then next, return to the same month |
| Calendar.NextMonthDayNumber | src/components/Calendar/Calendar.tsx:39-60 | the next month's 1st comes this month's length of days after this month's 1st |
| Calendar.NextMonthWeekday | src/components/Calendar/Calendar.tsx:39-60 | the next month's grid starts on this month's first weekday plus its length, modulo 7 |
| Calendar.SetMonth | src/components/Calendar/Calendar.tsx:64-69 | `setMonth(getMonth() ± 1)` gives a valid date; when the day of the month is kept, it lies in the adjacent month |
| Calendar.SetMonthLandsOnStepIffDayFits | src/components/Calendar/Calendar.tsx:65-69 | the date lands in the adjacent month exactly when its day exists there; otherwise it lands one month further on |
| Calendar.NextFromJanuaryThirtyFirstSkipsFebruary | src/components/Calendar/Calendar.tsx:65-69 | from 31 January 2025, "next" as written reaches 3 March 2025, while the adjacent month is February |
| Calendar.EventsForDate | src/components/Calendar/Calendar.tsx:80-83 | exactly the events dated on the given day |
| Calendar.EventsForDateAppend | src/components/Calendar/Calendar.tsx:80-83 | the filter distributes over concatenation, so it keeps the events' order |
| Calendar.Marks | src/components/Calendar/Calendar.tsx:154-183 | a day is highlighted exactly when selected; it shows min(3, n) dots, and "+" exactly when it has more than three events |
| Calendar.CalendarView.constructor | src/components/Calendar/Calendar.tsx:14-16 | today's month, no events, not loading |
| Calendar.CalendarView.GetDaysInMonth | src/components/Calendar/Calendar.tsx:39-60 | one blank per weekday before the 1st, then the days 1 to the month's length, in order |
| Calendar.CalendarView.NavigateMonth | src/components/Calendar/Calendar.tsx:62-72 | the shown month becomes the adjacent month, its running index moved by exactly one |
| Calendar.CalendarView.LoadEvents | src/components/Calendar/Calendar.tsx:23-37 | a query error keeps the events; otherwise the events become the data, or none when it is null; loading ends false |
| AuthContext.UserOf | src/context/AuthContext.tsx:80-86 | the app user keeps the session's id, email and creation date; it is segmented exactly when a filters row exists |
| AuthContext.LoadedState | src/context/AuthContext.tsx:69-103 | a throw while loading filters signs out; otherwise the user is authenticated with the session's identity and segmented exactly when filters were found |
| AuthContext.AfterEvent | src/context/AuthContext.tsx:52-64 | SIGNED_IN with a session loads the user; SIGNED_OUT clears the state; any other event changes nothing |
| AuthContext.AfterEventKeepsConsistent | src/context/AuthContext.tsx:52-64 | no event leads to an authenticated state without a user, and a sign-out always de-authenticates |
| AuthContext.SignOutForgetsSignIn | src/context/AuthContext.tsx:52-64 | a sign-out after a sign-in leaves the signed-out state |
| AuthContext.LoginResult | src/context/AuthContext.tsx:105-128 | success exactly when the provider returns a user; otherwise the provider's message, "Login failed", or the generic message for a throw |
| AuthContext.RegisterResult | src/context/AuthContext.tsx:130-160 | success exactly when a user is returned; an unconfirmed email adds the confirmation notice; failures as for login |
| AuthContext.AuthProvider.constructor | src/context/AuthContext.tsx:27-31 | no user, not authenticated, loading |
| AuthContext.AuthProvider.LoadUserData | src/context/AuthContext.tsx:69-103 | the state becomes `LoadedState` and stays consistent |
| AuthContext.AuthProvider.InitialSession | src/context/AuthContext.tsx:35-47 | a session loads its user; no session or a throw only clears loading |
| AuthContext.AuthProvider.OnAuthStateChange | src/context/AuthContext.tsx:52-64 | the state becomes `AfterEvent` of the old state |
| AuthContext.AuthProvider.Login | src/context/AuthContext.tsx:105-128 | the result is `LoginResult`; user and authentication are untouched; loading stays on exactly after a success |
| AuthContext.AuthProvider.Register | src/context/AuthContext.tsx:130-160 | the result is `RegisterResult`; loading stays on exactly after a success without a confirmation notice |
| AuthContext.AuthProvider.Logout | src/context/AuthContext.tsx:162-169 | the provider's state does not change; the listener's sign-out event does the clearing |
| AuthContext.AuthProvider.UpdateUser | src/context/AuthContext.tsx:171-173 | only the user changes, and the state stays consistent |
| AuthForm.ClassifyAuthError | src/components/Auth/AuthForm.tsx:67-74 | "Invalid login credentials" wins over "Email not confirmed", which wins over the raw message or the default |
| AuthForm.CredentialsWinOverConfirmation | src/components/Auth/AuthForm.tsx:67-74 | any message containing "Invalid login credentials" gets the credentials text |
| AuthForm.FailureText | src/components/Auth/AuthForm.tsx:61-62 | `result.error \|\| 'Ocurrió un error'`: the error when there is a non-empty one, 'Ocurrió un error' otherwise |
| AuthForm.ThreeEmojiPasswordIsLongEnough | src/components/Auth/AuthForm.tsx:39 | three emoji are six code units, so such a password passes the length gate |
| AuthForm.LoginForm.constructor | src/components/Auth/AuthForm.tsx:6-12 | login mode, empty fields, no messages, not loading |
| AuthForm.LoginForm.Submit | src/components/Auth/AuthForm.tsx:39-77 | in either mode a password under six UTF-16 code units is refused with its message; otherwise login is called, and each outcome sets its error or notice; loading ends false |
| AuthForm.LoginForm.ToggleMode | src/components/Auth/AuthForm.tsx:160-164 | the mode flips and both messages clear |
| EventList.EditableEvents | src/components/Events/EventList.tsx:67 | exactly the events the signed-in user created carry edit and delete controls |
| EventList.OthersEventsHaveNoControls | src/components/Events/EventList.tsx:67 | a user who created none of the events sees no controls |
| EventList.CanEdit | src/components/Events/EventList.tsx:67 | `user && user.id === event.createdBy` |
| EventList.ShowsEmptyState | src/components/Events/EventList.tsx:35-41 | the empty-state message shows exactly when there are no events |
| EventList.EmptyStateHasNoControls | src/components/Events/EventList.tsx:35-41 | when the empty state shows, no event carries controls |
| EventList.EventListView.constructor | src/components/Events/EventList.tsx:15 | nothing is being deleted |
| EventList.EventListView.BeginDelete | src/components/Events/EventList.tsx:17-20 | without a user nothing happens; with one the event is marked as being deleted |
| EventList.EventListView.FinishDelete | src/components/Events/EventList.tsx:21-32 | the mark clears whatever the outcome; the list refreshes exactly on success |
| EventList.EventListView.HandleDelete | src/components/Events/EventList.tsx:17-33 | without a user nothing changes; otherwise the mark ends cleared, and the list refreshes exactly on success |

## Left out

- AuthForm.LoginForm.Submit: requires an email that contains '@' and, in registration
  mode, a password shorter than six UTF-16 code units. The branch for an email without '@'
  and the registration call after the password gate use `signIn`, `signUp` and
  `setMessage`, which the component never defines. The password gate itself runs in both
  modes and is modelled in both.
- Home.HomeView.LoadTopProducts: when the first row of a product has no joined product,
  reading `sale.products.id` throws. The catch then leaves the ranking unchanged; the row is not
  skipped.
- AuthContext.AuthProvider.Logout: the provider calls `signOut` and leaves its own state
  to the auth listener's SIGNED_OUT event. The method therefore changes nothing, as written.
- Calendar.CalendarView: the component keeps a whole `Date`, and `navigateMonth` keeps its
  day of the month. The class keeps only the year and the month because it models the
  intended navigation to the adjacent month. `Calendar.SetMonth` models the whole date and
  carries the day overflow of the code as written (see Findings).
- Calendar.CalendarView.GetDaysInMonth: `new Date(year, month, 1)` reads the years 0 to 99
  as 1900 to 1999 and is undefined beyond about 275760 years either side of 1970. The model
  uses the proleptic Gregorian calendar for every integer year. It therefore differs from
  the source for February of year 0, where the source shows 1900's 28 days and the model
  29, and for years past the `Date` range, where the source's grid is empty.
- Date strings (`formatDateString`, `isToday`, `toISOString`, time zones) are not modelled.
  A day's string and today's date arrive as parameters.
- `parseInt` and `parseFloat` of form inputs are not modelled. An input arrives already
  parsed, as an `Option`. Fractional or partly numeric text is not represented.
- Money is a `real`. Floating-point rounding of `price * quantity` and `toString` is not
  modelled, and `formatCurrency` (Intl formatting) is left out.
- The backend client (`supabaseClient`, `dbHelpers`) is not part of this model. Each call
  is replaced by the outcome it returns.
- `loadData` runs its two loads with `Promise.all`. The model runs them one after the other,
  which gives the same final state because they write disjoint fields.
- Subscription set-up and tear-down of the auth listener are not modelled.
- Console logging is not modelled. The `PGRST116` code in `loadUserData` is only logged,
  so it changes nothing.
- Rendering and JSX are not modelled. Only the values the markup decides on are modelled:
  the dots, the '+' marker, the empty states, the enabled buttons and the owner controls.
- MainApp and Navigation are not part of this model. They only route between the views.

## Findings

| source | as written | input that shows it | evidently intended | confidence | as-written member | corrected member |
|---|---|---|---|---|---|---|
| src/components/Calendar/Calendar.tsx:62-72 | `newDate.setMonth(newDate.getMonth() + 1)` keeps the day of the month, and a day past the end of the target month rolls over into the month after it | the current date 31 January 2025 and "next": the calendar shows March 2025 (3 March), skipping February | the month after the one shown, whatever the day | not executed | Calendar.NextFromJanuaryThirtyFirstSkipsFebruary | Calendar.CalendarView.NavigateMonth |
