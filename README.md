# Day planner, data store and todo list — a Dafny model

This project models the three pieces of sequential logic in a personal trading and
productivity tracker, a browser front end over a REST backend:

- **The day-planner timeline** (`src/pages/Planner.tsx`). A day is drawn as a 1440-unit-tall
  canvas, one unit per minute. When the user clicks on it, the offset is clamped to the day and
  snapped down to a 15-minute line. That gives the start of a one-hour draft plan, whose end
  stops at 23:59. Both times are formatted as `HH:MM`. Blocks are drawn at `getPosition(start)`
  with height `getPosition(end) - getPosition(start)`. A save is refused when a required field
  is missing or when `startTime >= endTime` as strings. Otherwise it is sent as a create or as
  an update, and, when the request succeeds, the day's list is refetched. A fetch replaces the list only on status 200.
- **The shared data store** (`src/context/DataContext.tsx`). It holds four lists (trades,
  accounts, expenses, todos). Each operation replaces a list with a prepended, appended,
  filtered or mapped copy. Adding an expense also debits the matching accounts.
- **The todo page** (`src/pages/TodoList.tsx`). It has an add guard for blank titles, the
  active/completed split, a progress percentage, two sort orders (priority then due date, and
  due date latest first), and a colour for each priority. `Array.prototype.sort` must be stable
  (ECMAScript 2019 onwards). The model sorts by insertion in place and proves that the result is
  sorted, is a permutation, and keeps tied todos in their input order.

Modules:

- `JsStrings`: the JavaScript primitives the source relies on: `String(n)`, `padStart`,
  `split`, `Number`, `trim`, and `<` on strings.
- `Sequences`: `filter` and `map`.
- `TimeGrid`: the pure planner arithmetic.
- `Planner`: the page state as a class `PlannerPage`.
- `DataStore`: the store as a class `Store`.
- `Todos`: the todo page, with a class `TodoPage` for its input state.
- `Options`: `Option` and `Result`.

Stateful parts (the planner page, the store, the todo inputs) are classes whose methods state
their new state exactly. The pure parts are functions with lemmas. The backend, the clock, the
date library and id generation are parameters:

- A backend call's outcome is an argument. When it settles, its effect is applied in the same
  call.
- A fresh id is an argument `freshId`.
- The current time is given as hours and minutes, or as a timestamp.
- Day keys are opaque strings. Due dates are integer timestamps.

Behaviour of the code worth knowing:

- `fetchPlans` has no guard against a stale response arriving after the day changed.
- After a successful create or update, the list is refetched rather than merged locally.
- `getPosition` does not clamp its result.
- A click never produces a start such as 23:50: snapping gives 23:45, and its draft ends at
  23:59.

## Model

| member | source | states |
|---|---|---|
| TimeGrid.ClampOffset | src/pages/Planner.tsx:184 | the offset lies in [0, 1439]: unchanged inside the day, 0 below it, 1439 above it |
| TimeGrid.SnapDown | src/pages/Planner.tsx:187 | the snapped value is a multiple of 15, at most the input and more than the input minus 15 |
| TimeGrid.ClickStart | src/pages/Planner.tsx:184-190 | the click's start is a multiple of 15 within 15 below the clamped offset, at most 1425, so its hour is in 0..23 and its minute in {0, 15, 30, 45} |
| TimeGrid.ClickTimes | src/pages/Planner.tsx:189-204 | no contract; see ClickTimesPositions and ClickTimesOrdered |
| TimeGrid.ClickEnd | src/pages/Planner.tsx:193-195 | the end is at most 23:59 and after the start; it is start + 60 exactly when the start is before 23:00, and 23:59 otherwise |
| TimeGrid.FormatTime | src/pages/Planner.tsx:197-198 | no contract; see FormatTimeShape and FormatPositionRoundTrip |
| TimeGrid.Position | src/pages/Planner.tsx:212-215 | no contract; see FormatPositionRoundTrip and MinutesPosition |
| TimeGrid.Height | src/pages/Planner.tsx:217-219 | no contract; see HeightOfFormatted |
| TimeGrid.FormatTimeShape | src/pages/Planner.tsx:197-198 | for hours and minutes below 100, `formatTime` is five characters: two digits, ':', two digits |
| TimeGrid.FormatPositionRoundTrip | src/pages/Planner.tsx:197-215 | `getPosition(formatTime(h, m)) == h * 60 + m` for all non-negative h and m, with exact integers (JavaScript agrees for the hours 0..23 and minutes 0..59 the planner formats) |
| TimeGrid.MinutesPosition | src/pages/Planner.tsx:189-198 | splitting a minute count into hours and minutes, formatting and reading back gives the count |
| TimeGrid.PaddedValue | src/pages/Planner.tsx:197-198 | a zero-padded number is all digits, and `Number` reads it back as the number |
| TimeGrid.FormatOrder | src/pages/Planner.tsx:105 | for zero-padded `HH:MM` strings, `start < end` as strings holds exactly when the start minute is before the end minute |
| TimeGrid.HeightOfFormatted | src/pages/Planner.tsx:217-219 | the height of formatted times is the end minute minus the start minute, so it is non-negative when the start is not after the end |
| TimeGrid.ClickTimesPositions | src/pages/Planner.tsx:181-204 | a click draft's strings read back as the snapped start and the clamped end; its height is between 1 and 60 |
| TimeGrid.ClickTimesOrdered | src/pages/Planner.tsx:193-205 | a click draft's start string is below its end string, so it always passes the time check |
| TimeGrid.ClickClamping | src/pages/Planner.tsx:184 | any click above the canvas gives 00:00 to 01:00, exactly like a click at 0; any click below it gives 23:45 to 23:59, exactly like a click at 1439 |
| TimeGrid.ClickExamples | src/pages/Planner.tsx:186-187 | snapping is floor to 15 and leaves grid offsets unchanged; a click at 125 gives 02:00 to 03:00 |
| TimeGrid.NowLine | src/pages/Planner.tsx:312-315 | the current-time line exists exactly when the viewed day is today, and it lies within the day |
| TimeGrid.NowLineIsPosition | src/pages/Planner.tsx:315 | the current-time line sits at the position of the `HH:MM` built from the hour and minute readings, where a plan starting at that time is drawn |
| TimeGrid.GridLine | src/pages/Planner.tsx:187-190 | the k-th 15-minute line of the day is hour k / 4, minute 15 * (k mod 4) |
| TimeGrid.AutoScroll | src/pages/Planner.tsx:84-91 | on today the scroll is max(0, now - 100); on another day it is left where it was |
| TimeGrid.StrLess5 | src/pages/Planner.tsx:105 | string `<` on two five-character strings with the same middle character compares characters 0, 1, 3 and 4 in order |
| JsStrings.ToNumber | src/pages/Planner.tsx:213 | no contract; see ToNumberDigits |
| JsStrings.Split | src/pages/Planner.tsx:213 | there is always at least one part; see SplitFirst, SplitNone and SplitJoin |
| JsStrings.Trim | src/pages/TodoList.tsx:41 | no contract; see TrimEmpty |
| JsStrings.StrLess | src/pages/Planner.tsx:105 | no contract; see StrLessIrreflexive, StrLessTransitive, StrLessTotal and TimeGrid.FormatOrder |
| JsStrings.DecimalString | src/pages/Planner.tsx:197-198 | `String(n)` is non-empty and all digits, and is one character exactly when n is below 10; see DecimalStringValue |
| JsStrings.PadStart | src/pages/Planner.tsx:197-198 | the padded string has the requested width when the input is shorter, and the input's length otherwise; see PaddedValue and FormatTimeShape |
| JsStrings.ToNumberDigits | src/pages/Planner.tsx:213 | `Number` of a non-empty digit string is the integer it spells |
| JsStrings.DecimalStringValue | src/pages/Planner.tsx:197-198 | the digits of the modelled `String(n)` read back as n (JavaScript's `String(n)` has these digits for n below 10^21) |
| JsStrings.LeadingZerosValue | src/pages/Planner.tsx:197-198 | left zero padding does not change the value of a digit string |
| JsStrings.SplitFirst | src/pages/Planner.tsx:213 | splitting at ':' makes the text before the first ':' the first part |
| JsStrings.SplitNone | src/pages/Planner.tsx:213 | a string without ':' splits into itself alone |
| JsStrings.SplitJoin | src/pages/Planner.tsx:213 | joining the parts of a split with the separator gives the string back |
| JsStrings.StrLessIrreflexive | src/pages/Planner.tsx:105 | no string is below itself, so equal start and end times are refused |
| JsStrings.StrLessTransitive | src/pages/Planner.tsx:105 | string order is transitive |
| JsStrings.StrLessTotal | src/pages/Planner.tsx:105 | any two different strings are ordered one way or the other |
| JsStrings.TrimEmpty | src/pages/TodoList.tsx:41 | a string trims to empty exactly when all of its characters are white space |
| Planner.Filled | src/pages/Planner.tsx:94 | no contract; JavaScript truthiness of an optional string, see SaveRequest |
| Planner.Complete | src/pages/Planner.tsx:94 | no contract; the required-field guard, see SaveRequest |
| Planner.PlanPath | src/pages/Planner.tsx:121 | no contract; the `/plans/${id}` route, see SaveRequest and PlannerPage.HandleDelete |
| Planner.TypeCount | src/pages/Planner.tsx:335 | no contract; see TypeCountsSum |
| Planner.SaveRequest | src/pages/Planner.tsx:94-136 | missing title, start, end or type gives MissingField; otherwise start not below end gives InvalidTime; otherwise the body is the draft stamped with the day key; a draft with an id is PUT to `/plans/{id}` under that id, and one without is POSTed to `/plans` under the fresh id |
| Planner.AfterFetch | src/pages/Planner.tsx:60-69 | the list becomes the response data on status 200 and stays as it was on any other status or an exception |
| Planner.PlannerPage.constructor | src/pages/Planner.tsx:56-57 | the page starts with an empty list, an empty draft and the modal closed |
| Planner.PlannerPage.Mount | src/pages/Planner.tsx:60-73 | on the first render the page asks for `/plans` with its starting day; the list becomes the data of a 200 response and otherwise stays empty |
| Planner.PlannerPage.FetchPlans | src/pages/Planner.tsx:60-69 | asks for `/plans` with the viewed day; the list is replaced only by a 200 response |
| Planner.PlannerPage.HandleSave | src/pages/Planner.tsx:93-159 | a refused draft sends nothing and changes nothing; an accepted one sends its request, closes the modal and clears the draft, and refetches the day only when the request succeeded |
| Planner.PlannerPage.HandleDelete | src/pages/Planner.tsx:161-168 | sends DELETE `/plans/{id}`, and refetches the day only when it succeeded; otherwise the list is unchanged |
| Planner.PlannerPage.OpenAdd | src/pages/Planner.tsx:176-179 | opens the modal on the Trading 09:00 to 10:00 template |
| Planner.PlannerPage.OpenEdit | src/pages/Planner.tsx:170-174 | opens the modal on the clicked plan |
| Planner.PlannerPage.TimelineClick | src/pages/Planner.tsx:181-206 | opens the modal on the draft derived from the click offset |
| Planner.PlannerPage.SelectDate | src/pages/Planner.tsx:71-73 | changing the day key refetches for the new day; choosing the same key sends nothing |
| Planner.PlannerPage.Layout | src/pages/Planner.tsx:278-280 | there is one block per plan, in list order, at its start position with its height |
| Planner.AddTemplate | src/pages/Planner.tsx:176-177 | no contract; see AddTemplateSave |
| Planner.ClickDraft | src/pages/Planner.tsx:200-204 | no contract; see ClickDraftSave |
| Planner.EditDraft | src/pages/Planner.tsx:170-174 | no contract; see EditDraftSave |
| Planner.BlockLayout | src/pages/Planner.tsx:279-280 | no contract; see AcceptedBlockLayout and PlannerPage.Layout |
| Planner.ClickDraftSave | src/pages/Planner.tsx:200-204 | a click draft is refused until it has a title; with one, it is always created (POST) as Trading with the click's times and the day key |
| Planner.AddTemplateSave | src/pages/Planner.tsx:176-177 | the add template with a title is created as 09:00 to 10:00 |
| Planner.EditDraftSave | src/pages/Planner.tsx:170-174 | saving an opened plan unchanged PUTs that same plan to its own route, stamped with the viewed day |
| Planner.TimeCheckIsMinuteOrder | src/pages/Planner.tsx:105-114 | for `HH:MM` times, a complete draft is accepted exactly when its start minute is before its end minute |
| Planner.AcceptedBlockLayout | src/pages/Planner.tsx:279-280 | an accepted plan's block starts inside the day, has positive height, and ends at its end minute |
| Planner.TypeCountsSum | src/pages/Planner.tsx:334-336 | the summary's per-type counts add up to the number of plans of the day |
| DataStore.Store.constructor | src/context/DataContext.tsx:23-26 | the store starts from the four saved lists |
| DataStore.Store.AddTrade | src/context/DataContext.tsx:34 | the new trade is first and the old list follows; nothing else changes |
| DataStore.Store.DeleteTrade | src/context/DataContext.tsx:35 | the trades become the list without that id; nothing else changes |
| DataStore.Store.AddAccount | src/context/DataContext.tsx:37 | the new account is last after the old list; nothing else changes |
| DataStore.Store.AddExpense | src/context/DataContext.tsx:39-47 | the expense is first in the expenses, and the accounts are debited by its amount; trades and todos do not change |
| DataStore.Store.AddTodo | src/context/DataContext.tsx:49 | the new todo is first in the list |
| DataStore.Store.ToggleTodo | src/context/DataContext.tsx:50 | the todos become the toggled list |
| DataStore.Store.DeleteTodo | src/context/DataContext.tsx:51 | the todos become the list without that id |
| DataStore.Store.UpdateTodo | src/context/DataContext.tsx:52 | the todos become the list with the matching entries replaced |
| DataStore.TradesWithout | src/context/DataContext.tsx:35 | no contract; see DeleteTradeSpec |
| DataStore.Debited | src/context/DataContext.tsx:42-46 | no contract; see DebitedSpec, DebitedTotal and DebitedTotalOne |
| DataStore.TodosWithout | src/context/DataContext.tsx:51 | no contract; see DeleteTodoSpec |
| DataStore.Toggled | src/context/DataContext.tsx:50 | no contract; see ToggledSpec and ToggleTwice |
| DataStore.Replaced | src/context/DataContext.tsx:52 | no contract; see ReplacedSpec |
| DataStore.DeleteTradeSpec | src/context/DataContext.tsx:35 | no trade with the id remains, every other trade stays, nothing is removed when none matches, and deletion distributes over concatenation (order kept) |
| DataStore.DeleteTodoSpec | src/context/DataContext.tsx:51 | the same for todos |
| DataStore.DebitedSpec | src/context/DataContext.tsx:42-46 | the same length; each account with the expense's account id loses the amount from its balance with every other field kept; other accounts are unchanged; with no match the list is identical |
| DataStore.NoIdNowhere | src/context/DataContext.tsx:43 | a zero match count means no account has the id |
| DataStore.DebitedTotal | src/context/DataContext.tsx:42-46 | the total balance drops by the amount times the number of matching accounts |
| DataStore.DebitedTotalOne | src/context/DataContext.tsx:42-46 | with exactly one matching account, the total balance drops by exactly the amount |
| DataStore.ToggledSpec | src/context/DataContext.tsx:50 | toggling flips `isComplete` only on matching todos and keeps length, order and the other fields |
| DataStore.ToggleTwice | src/context/DataContext.tsx:50 | toggling the same id twice gives back the original list |
| DataStore.ReplacedSpec | src/context/DataContext.tsx:52 | every todo with the updated id becomes the update, others stay, the length is kept, and updating twice equals updating once |
| Sequences.FilterConcat | src/context/DataContext.tsx:35 | filtering distributes over concatenation |
| Sequences.FilterKeepsAll | src/pages/TodoList.tsx:56-57 | a filter keeps the whole list, or its full length, exactly when every element passes |
| Sequences.FilterPartition | src/pages/TodoList.tsx:55-56 | a filter and its complement together hold every element once |
| Sequences.MapMap | src/context/DataContext.tsx:50 | mapping twice is mapping the composition |
| Sequences.MapIdentity | src/context/DataContext.tsx:42-46 | mapping a function that changes no element gives the list back |
| Todos.CanAdd | src/pages/TodoList.tsx:41 | no contract; see CanAddSpec and BlankTasks |
| Todos.NewTodo | src/pages/TodoList.tsx:42-48 | no contract; see TodoPage.HandleAdd |
| Todos.CanAddSpec | src/pages/TodoList.tsx:41 | a task can be added exactly when it is not all white space |
| Todos.BlankTasks | src/pages/TodoList.tsx:41 | the empty task and a blanks-only task are refused |
| Todos.TodoPage.constructor | src/pages/TodoList.tsx:35-37 | the inputs start empty, with priority MEDIUM |
| Todos.TodoPage.HandleAdd | src/pages/TodoList.tsx:40-53 | a blank task changes nothing; otherwise a not-complete todo with the untrimmed title, the chosen priority and the chosen date (or now) goes first in the store, the task and date inputs are cleared, and the priority keeps its value |
| Todos.ActiveTodos | src/pages/TodoList.tsx:55 | no contract; see Partition and SortedActive |
| Todos.CompletedTodos | src/pages/TodoList.tsx:56 | no contract; see Partition and SortedCompleted |
| Todos.Partition | src/pages/TodoList.tsx:55-56 | active and completed todos partition the list: the lengths add up, the multisets add up to the whole, and each todo is in exactly the list its flag says |
| Todos.Progress | src/pages/TodoList.tsx:57 | progress is 0 for an empty list, always in [0, 100], and 100 exactly when the list is non-empty and all its todos are complete |
| Todos.Percent | src/pages/TodoList.tsx:57 | a part of a positive whole in percent is in [0, 100], and 100 exactly when the part is the whole |
| Todos.Rank | src/pages/TodoList.tsx:201 | no contract; the weights HIGH 3, MEDIUM 2, LOW 1, see SortedMeaning |
| Todos.Compare | src/pages/TodoList.tsx:200-220 | no contract; see BeforeTotal, BeforeTransitive, SortedMeaning and TiedEquivalence |
| Todos.BeforeTotal | src/pages/TodoList.tsx:199-204 | each comparator relates any two todos one way or the other |
| Todos.BeforeTransitive | src/pages/TodoList.tsx:199-204 | each comparator is transitive |
| Todos.SortedMeaning | src/pages/TodoList.tsx:199-220 | in the active order higher priority comes first (HIGH before MEDIUM before LOW) with the earlier due date first within a priority; in the completed order the later due date comes first |
| Todos.TiedEquivalence | src/pages/TodoList.tsx:199-220 | a comparator result of 0 is an equivalence, and two tied todos may stand in either order |
| Todos.InsertSortedAt | src/pages/TodoList.tsx:199-220 | inserting from the back puts the new todo right after the last element it may follow, passing every later element that must come after it |
| Todos.InsertSortedPermutation | src/pages/TodoList.tsx:199-220 | one insertion adds exactly the inserted todo to the multiset |
| Todos.InsertSortedSorted | src/pages/TodoList.tsx:199-220 | inserting into a sorted list keeps it sorted |
| Todos.InsertSortedStable | src/pages/TodoList.tsx:199-220 | among the todos tied with any given one, the inserted todo goes after those already in the list, and their order is kept |
| Todos.SortSpec | src/pages/TodoList.tsx:199-220 | no contract; see SortSpecPermutation, SortSpecSorted and SortSpecStable |
| Todos.SortSpecPermutation | src/pages/TodoList.tsx:199-220 | the reference sort is a permutation of its input |
| Todos.SortSpecSorted | src/pages/TodoList.tsx:199-220 | the reference sort is sorted under the comparator |
| Todos.SortSpecStable | src/pages/TodoList.tsx:199-220 | the reference sort is stable: for every todo, the todos tied with it come out in their input order |
| Todos.SortInPlace | src/pages/TodoList.tsx:199-220 | sorting the array in place leaves it holding the stable reference sort of its old contents |
| Todos.Insert | src/pages/TodoList.tsx:199-220 | one in-place step: the prefix up to `i` becomes the old prefix with the old `a[i]` inserted, and the rest of the array is unchanged |
| Todos.SortedActive | src/pages/TodoList.tsx:199-204 | the active tab shows the stable sort of the incomplete todos: priority first, then by due date, as a permutation of exactly the incomplete todos |
| Todos.SortedCompleted | src/pages/TodoList.tsx:219-220 | the completed tab shows the stable sort of the completed todos: latest due first, as a permutation of exactly the completed todos |
| Todos.PriorityColor | src/pages/TodoList.tsx:59-63 | red exactly for HIGH, orange exactly for MEDIUM, green for every other string |
| Todos.PriorityColors | src/pages/TodoList.tsx:59-63 | HIGH, MEDIUM and LOW get red, orange and green |

## Left out

- Rendering: markup, modals, toasts, hover and z-index, colours of plan types, and the theme.
  The form fields' `onChange` bindings, which copy typed values into the draft, are left out too.
- The success toast and the modal close at src/pages/Planner.tsx:151-158 run before the request
  settles. The model applies the close and the draft reset together with the request. It does
  not read them as a sign that the save succeeded.
- Asynchrony: each request's outcome (`savedOk`, `deletedOk`, the fetch result) is a parameter
  of the method that sends it. Interleavings of several in-flight requests are not modelled.
  When a fetch for an old day resolves late it still replaces the list, because the source has
  no guard against that. The model claims no guard. A successful save also closes the modal and
  clears the draft a second time when it settles (src/pages/Planner.tsx:123-124, 138-139), so a
  draft opened in the meantime, by a new timeline click for instance, is closed and wiped; because
  the model settles each request inside the call, it cannot show this.
- The backend is abstract: requests are values (`Get`, `Post`, `Put`, `Delete`), and a fetch
  outcome is a status with a list, or an exception.
- `src/services/apiService.ts`, `src/context/AuthContext.tsx` and the localStorage load and sync
  (src/context/DataContext.tsx:23-32) are not part of this model. The store's constructor takes
  the loaded lists as arguments.
- Date handling goes through date-fns (`format`, `addDays`, `isSameDay`, `parseISO`) and
  `new Date()`. Day keys are opaque strings. "Viewing today", the current hour and the current
  minute are separate parameters, one per clock reading. The due date of a new todo is a parameter, and so is the current instant.
  `getDueDateLabel` is left out because it depends on the wall clock.
- `uuidv4` is the `freshId` parameter. Uniqueness of ids is not modelled.
- The click offset is an integer. A fractional `clientY` snaps the same way, because
  floor(floor(y) / 15) = floor(y / 15).
- Amounts, balances and trade figures are exact reals. JavaScript's floating-point rounding is
  not modelled.
- Todos.Progress: the ratio `completed / total * 100` is an exact real, whereas JavaScript computes
  it as a double. Its bounds, the 0 for an empty list and the 100 exactly when all are complete
  hold for doubles too on any list of realistic length, but rounding is not modelled.
- TimeGrid.NowLine: the source reads the clock three times (the same-day check, then the hours,
  then the minutes; src/pages/Planner.tsx:312-315), and the scroll effect reads it twice
  (src/pages/Planner.tsx:85-87). The model takes these readings as separate parameters and does
  not assume they come from one instant. So it does not exclude a render that straddles an hour
  change, in which the line is drawn off by up to 59 minutes.
- JsStrings.Number: JavaScript numbers are doubles; the model's numbers are exact integers. The two
  agree below 2^53, which covers every position and height the planner computes from `HH:MM`
  times. `String(n)` for n at or above 10^21, which JavaScript writes with an exponent, is not
  modelled: the model spells every n in plain digits.
- JsStrings.ToNumber models `Number` only on trimmed empty strings, digit strings and digit
  strings with a leading minus. Decimal points, exponents, hexadecimal, a leading `+` and
  `Infinity` all read as NaN in the model, whereas JavaScript reads them as numbers. The
  planner's `HH:MM` input never contains them.
- JsStrings.StrLess compares Unicode code points. JavaScript compares UTF-16 code units. The
  two orders differ only for characters outside the Basic Multilingual Plane.
- The display rounding `Math.round(progress)` and every other rendering of the progress and
  colour values are left out.
- The statistics and list filters in the Dashboard, TradeAnalytics, TradeForm, TradeList,
  AccountList and ExpenseList components are not part of this model (they are floating point
  and locale-dependent rendering). The role and route glue, the TradingView script injection and
  the build configuration are not part of this model either.
- `deleteAccount`, `updateAccount` and `fetchTrades` are called by components but are not
  defined by the data store. They are not modelled.
