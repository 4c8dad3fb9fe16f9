# Expense tracker: a verified model of its request rules and view state

This project models three parts of a small expense tracker:

- the Flask server's request handlers (`app.py`): register and log in users; add, list, read, update and delete expenses owned by the logged-in user; delete a user;
- the root React component (`frontend/src/App.jsx`): its `useState` slots and the event handlers that change them after each API call;
- the analytics pie chart (`frontend/src/analytics.jsx`): it turns per-category totals into chart labels and data, and drops a reply that arrives after it has unmounted.

Files:

- `values.dfy` (module `Values`): JSON values, `Option`, and `Outcome`. An `Outcome` is how an awaited network call settles: `Success(value)` or `Failure`.
- `backend.dfy` (module `Backend`): class `Store` holds the `users` and `expenses` collections as maps and has one method per route. Each method returns the status code and the JSON body the handler sends. A user is keyed by their email. An expense is keyed by its `_id` in the lower-case form that `str(ObjectId(...))` prints; a route id is resolved the way `ObjectId(id)` parses it, ignoring the case of its hex digits.
- `client.dfy` (module `ExpenseApp`): class `App` has one field per `useState` slot. `Snapshot()` collects the fields into one `State` value, so each handler's contract gives the whole new state as an update of the old one. The list updates inside the handlers (`map` for the optimistic merge, `filter` for delete) and the budget's "Remaining" figure are pure functions with their own lemmas.
- `analytics.dfy` (module `AnalyticsChart`): the projection of the reply into chart data, plus class `Analytics`. The class holds `chartData`, the `isMounted` flag captured by the effect's closure, and a count of the fetches the effect has started.

Outside calls are parameters of the methods:

- bcrypt's hash of a new password is `hashed`.
- `bcrypt.check_password_hash` is `checkPw`.
- `create_access_token` is `mint`.
- `datetime.utcnow()` is `now`.
- The `_id` that MongoDB gives an inserted document is `freshId`. It is new and canonical, which MongoDB guarantees.
- The caller's JWT identity is `identity`.
- JavaScript's `Number(...)` is `toNumber`.
- Each client API call is an `Outcome`.

The chart does not refresh after the list changes. App.jsx:277 passes `refreshTrigger` to the chart, evidently so that it re-fetches after each change. But `Analytics()` takes no props and its effect has an empty dependency list (analytics.jsx:13, 56), so the fetch runs only once, on mount. The model follows the code: `AnalyticsChart.Analytics.Rerender` states that a re-render with any counter changes nothing.

## Model

| member | source | states |
|---|---|---|
| `Backend.CanonicalId` | app.py:140-144 | a valid id resolves to a canonical (24 lower-case hex digit) key that agrees with it digit by digit up to letter case |
| `Backend.CanonicalIdFixesCanonical` | app.py:109 | the `_id` string the server sends back resolves to the same document |
| `Backend.CanonicalIdIgnoresCase` | app.py:144 | two valid spellings name the same document exactly when they differ only in letter case |
| `Backend.IsValidObjectId` | app.py:121 | `ObjectId.is_valid(id)` on a route id: exactly 24 hexadecimal digits, in either case; the same test guards app.py:140 and app.py:170 |
| `Backend.IsEmpty` | app.py:77 | `not data` on the decoded body: a `null` body or an empty object; the same test guards app.py:149 |
| `Backend.HasRequiredFields` | app.py:81 | the body has each of the keys `amount`, `category` and `description` |
| `Backend.AmountAcceptedAsWritten` | app.py:153 | the negation of the guard as written: the amount is present, passes `isinstance(..., (int, float))`, which Python booleans also pass, and is greater than 0 |
| `Backend.IsPositiveAmount` | app.py:153 | the corrected guard: the amount is present and is a JSON integer or float greater than 0 |
| `Backend.Owns` | app.py:125 | `find_one({"_id": ObjectId(id), "user_id": user_id})` finds a document: the key is stored and its owner is the caller; the same query is made at app.py:144 and app.py:174 |
| `Backend.OwnedIds` | app.py:104 | the keys of the documents `find({"user_id": user_id})` matches: exactly the stored keys whose owner is the user |
| `Backend.AmountGuardAcceptsTrue` | app.py:152-154 | the amount guard as written accepts exactly the positive numbers plus JSON `true` |
| `Backend.PositiveAmountIsNumber` | app.py:152-154 | the corrected guard accepts only numbers, accepts every positive int or float, and rejects `true` |
| `Backend.DistinctIdsCount` | app.py:104 | a listing without repeated ids has as many distinct ids as entries |
| `Backend.ListingHasOwnedCount` | app.py:104-111 | a listing of a user's expenses holds exactly as many entries as the user owns |
| `Backend.OwnedAfterInsert` | app.py:85-92 | inserting a new document adds its id to its owner's expenses only |
| `Backend.OwnedAfterDelete` | app.py:174-178 | deleting a document removes only that id from any user's expenses |
| `Backend.OwnedAfterAmountChange` | app.py:156-159 | changing an amount never moves an expense between users |
| `Backend.Store.constructor` | app.py:21-22 | the model's own starting point, an empty store that satisfies `Valid()`; app.py:21-22 connects to a database that may already hold documents, and no route's contract depends on the store being empty, since each requires only `Valid()` |
| `Backend.Store.Register` | app.py:28-47 | a missing email gives 500; a known email gives 400 "User already exists." with users unchanged; a missing password gives 500; otherwise exactly one user (email, hash, time) is added and 201 is returned |
| `Backend.Store.Login` | app.py:51-68 | an unknown email gives 404; a hash mismatch gives 400; a match gives 200 with the token minted for that email; a missing field gives 500; the store is never changed |
| `Backend.Store.AddExpense` | app.py:73-93 | an absent or empty body gives 400 "No data provided"; a body lacking amount, category or description gives 400; both leave the store unchanged; otherwise exactly one expense owned by the caller is added and 200 is returned |
| `Backend.Store.GetExpenses` | app.py:101-111 | 404 exactly when the caller owns no expense; otherwise 200 with each of the caller's expenses exactly once and nobody else's |
| `Backend.Store.GetExpense` | app.py:119-130 | an invalid id gives 400; an id not owned by the caller gives 404; otherwise 200 with that document |
| `Backend.Store.UpdateExpense` | app.py:138-160 | guards in order: invalid id 400, not owned 404, no data 400, amount missing, not a number or not positive 400, each with no change; otherwise only that expense's amount changes, and the reply echoes it |
| `Backend.Store.DeleteExpense` | app.py:168-182 | an invalid id gives 400 and an unowned or missing id gives 404, both with no change; otherwise exactly that document is removed and 200 is returned |
| `Backend.Store.DeleteUser` | app.py:195-204 | an unknown email gives 404 with no change; a known one is removed alone and 200 is returned; expenses are untouched |
| `Backend.RegisterThenLogin` | app.py:38-65 | a newly registered user whose password the hash accepts logs in with a token minted for their email |
| `ExpenseApp.WithField` | frontend/src/App.jsx:72-75 | the named field takes the new value and the other two keep theirs |
| `ExpenseApp.WithFieldLaws` | frontend/src/App.jsx:74 | re-typing a field's text is a no-op, and a later change of a field overrides an earlier one |
| `ExpenseApp.MergeAmount` | frontend/src/App.jsx:110-114 | same length and order; the entry whose id is the edited id gets the new amount and keeps its other fields; every other entry is unchanged |
| `ExpenseApp.MergeAmountKeepsIds` | frontend/src/App.jsx:111-113 | the merged list carries the same ids in the same order |
| `ExpenseApp.MergeAmountWithoutMatch` | frontend/src/App.jsx:112 | with no entry selected (`null`) or none matching, the list is unchanged |
| `ExpenseApp.MergeAmountIdempotent` | frontend/src/App.jsx:110-114 | merging the same amount twice equals merging it once |
| `ExpenseApp.RemoveById` | frontend/src/App.jsx:128 | an entry stays exactly when it was in the list and its id differs from the deleted one |
| `ExpenseApp.RemoveByIdConcat` | frontend/src/App.jsx:128 | the filter works piecewise over a concatenation, so the kept entries stay in their order |
| `ExpenseApp.RemoveByIdLength` | frontend/src/App.jsx:128 | the filter drops exactly as many entries as carry the id |
| `ExpenseApp.RemoveAbsentId` | frontend/src/App.jsx:128 | deleting an id the list does not hold leaves the list unchanged |
| `ExpenseApp.RemoveAfterMerge` | frontend/src/App.jsx:110-128 | deleting an entry after merging a new amount into it gives what deleting it alone gives |
| `ExpenseApp.Remaining` | frontend/src/App.jsx:236 | remaining plus spent equals the budget amount; it is negative exactly when spent exceeds the amount |
| `ExpenseApp.RemainingStyle` | frontend/src/App.jsx:227-233 | the warning colour is used exactly when spent exceeds the budget amount |
| `ExpenseApp.App.RemainingLine` | frontend/src/App.jsx:181-236 | no line while logged out (no token) or without a loaded budget; when logged in with one, the figure plus spent is the amount, in warning style exactly when the figure is negative |
| `ExpenseApp.App.LoggedIn` | frontend/src/App.jsx:181 | the token is not the empty string, which is when the logged-in view replaces the login form |
| `ExpenseApp.App.constructor` | frontend/src/App.jsx:14-36 | every slot starts at its `useState` initial value, so nobody is logged in |
| `ExpenseApp.App.SetEmail` | frontend/src/App.jsx:188 | only the email slot changes |
| `ExpenseApp.App.SetPassword` | frontend/src/App.jsx:197 | only the password slot changes |
| `ExpenseApp.App.SetBudgetAmount` | frontend/src/App.jsx:254 | only the budget input slot changes |
| `ExpenseApp.App.HandleLogin` | frontend/src/App.jsx:43-58 | the error is cleared; success sets the token to the returned one; failure sets the login error and leaves the token as it was; nothing else changes |
| `ExpenseApp.App.HandleFetchExpenses` | frontend/src/App.jsx:61-69 | success replaces the cached list with the fetched one; failure sets only the error message |
| `ExpenseApp.App.HandleInputChange` | frontend/src/App.jsx:72-75 | only the named field of the form changes |
| `ExpenseApp.App.HandleAddExpense` | frontend/src/App.jsx:78-92 | success clears the error, sets the success message, resets the form to three empty strings and adds exactly 1 to the refresh counter; failure sets only the error |
| `ExpenseApp.App.HandleEditClick` | frontend/src/App.jsx:95-102 | the edited id becomes the expense's id and the edit buffer gets exactly its amount, category and description |
| `ExpenseApp.App.HandleUpdateExpense` | frontend/src/App.jsx:105-122 | success merges Number(edit amount) into the list, leaves edit mode, adds exactly 1 to the counter and clears the error; failure sets only the error |
| `ExpenseApp.App.HandleDeleteExpense` | frontend/src/App.jsx:125-136 | success filters the id out of the list, clears the error, sets the success message and adds 1 to the counter; failure sets only the error |
| `ExpenseApp.App.HandleFetchBudget` | frontend/src/App.jsx:139-147 | success stores the fetched budget; failure sets only the budget error |
| `ExpenseApp.App.HandleUpsertBudget` | frontend/src/App.jsx:150-161 | success clears the budget error, sets the success message and empties the input; failure sets only the budget error |
| `ExpenseApp.EditThenUpdate` | frontend/src/App.jsx:95-117 | Edit, then a call of handleUpdateExpense that succeeds, changes only the amount of the clicked entry, to Number of its old amount, leaves edit mode and adds 1 to the counter |
| `AnalyticsChart.Categories` | frontend/src/analytics.jsx:29 | one label per reply entry, label i being entry i's category |
| `AnalyticsChart.Totals` | frontend/src/analytics.jsx:30 | one amount per reply entry, amount i being entry i's total |
| `AnalyticsChart.ToChartData` | frontend/src/analytics.jsx:29-48 | one dataset with the fixed label and palette; labels and data are parallel to the reply, in its order |
| `AnalyticsChart.ProjectionIsLossless` | frontend/src/analytics.jsx:29-30 | pairing the labels with the amounts gives back the reply |
| `AnalyticsChart.ProjectionIsInjective` | frontend/src/analytics.jsx:29-33 | two replies give the same chart exactly when they are equal |
| `AnalyticsChart.Analytics.View` | frontend/src/analytics.jsx:60-64 | the loading text while `chartData` is null, otherwise the pie of the stored chart data |
| `AnalyticsChart.Analytics.Mount` | frontend/src/analytics.jsx:14-18 | on mount the chart data is null, so the loading text shows; the flag is set and the fetch starts exactly once |
| `AnalyticsChart.Analytics.Rerender` | frontend/src/analytics.jsx:13-56 | a parent re-render, with any refresh counter, changes nothing and starts no fetch |
| `AnalyticsChart.Analytics.Unmount` | frontend/src/analytics.jsx:53-55 | cleanup clears the flag and changes nothing else |
| `AnalyticsChart.Analytics.Receive` | frontend/src/analytics.jsx:26-51 | while mounted, a reply with data sets the chart to its projection and the chart shows; after unmount, or on failure, the chart data is unchanged |
| `AnalyticsChart.StaleReplyIsDropped` | frontend/src/analytics.jsx:18-55 | a reply that settles after cleanup leaves the chart data as it was |
| `AnalyticsChart.MountRenderReceive` | frontend/src/analytics.jsx:58-64 | loading shows until the one fetch succeeds; then the chart of the reply shows |

## Findings

| source | as written | input that shows it | evidently intended | confidence | as-written member | corrected member |
|---|---|---|---|---|---|---|
| app.py:153 | `isinstance(new_amount, (int, float))` is true of Python booleans, and `True <= 0` is false | PUT body `{"amount": true}` passes the guard and stores `true` as the amount | reject everything but a positive number, as the 400 message says | high; not executed | `Backend.AmountGuardAcceptsTrue` | `Backend.PositiveAmountIsNumber` |

`Backend.Store.UpdateExpense` uses the corrected guard, `IsPositiveAmount`.

## Left out

- Flask routing, CORS, the JWT decorator (a request without a valid token is rejected before any handler runs) and the MongoDB client. The store is two maps, and the caller's identity is a parameter.
- bcrypt and JWT. A new password's hash, the password check and token creation are parameters. So is the one-hour expiry. bcrypt's own rejections (an empty or non-string password makes it raise) are not modelled.
- Request bodies that are not JSON objects, and Flask's handling of a wrong content type. A body is a JSON object or `null`.
- MongoDB query semantics for an email that is an object or an array (operator documents, array matching). The model looks users up by exact equality.
- Python's `float` NaN and infinities from a non-standard JSON body. Float amounts are real numbers.
- The `except Exception` branches (500 with the exception text): the in-memory store never raises. The `message - f"..."` typo at app.py:133 is in such a branch and is not modelled.
- The `deleted_count == 0` branch (app.py:179-180): in a sequential store, the document just found is always deleted.
- `bson`'s `ObjectId.is_valid` also passes whitespace through `bytes.fromhex`. The model takes a valid id to be exactly 24 hex digits.
- The debug route `get_users` (app.py:211-222) and `home` (app.py:190-191): the first returns a read-only listing of each user's id, email and creation time, the second is a constant.
- `frontend/src/services/api.js` is not part of this model: its calls are `Outcome` parameters. Note that `updateExpense` and `deleteExpense` (api.js:15-16) use an `id` that is never declared, and `updateExpense` takes one argument where App.jsx:109 passes two. In a module an undeclared name throws a ReferenceError, inside the handlers' `try`, so as shipped handleDeleteExpense always takes its failure branch. The success branch of `HandleDeleteExpense` describes what the handler does once the call resolves.
- This revision of App.jsx renders no edit form and no Save control: `handleUpdateExpense` (App.jsx:105-122) is attached to no element and `editData` is never shown, so clicking Edit only sets `editExpenseId` and `editData`. `ExpenseApp.App.HandleUpdateExpense` and `ExpenseApp.EditThenUpdate` model the handler as if it were called.
- Each async handler runs from its call to its settlement as one step. In the source, `handleUpdateExpense` reads `editExpenseId` and `editData` when it is called, while its `prev =>` updater sees the list as it is when the call settles (App.jsx:107-112); the model reads one state for both.
- The `/budget` and `/analytics/group-by-category` routes: app.py has no handlers for them. Only the client's use of their replies is modelled.
- The order in which un-awaited fetches settle (App.jsx:52-53, 84-85, 156). Each fetch is its own handler, `HandleFetchExpenses` or `HandleFetchBudget`, whose outcome can be applied in any order.
- `ExpenseApp.App.HandleUpdateExpense`: the request body it sends (`editData`, not the numeric payload) is not modelled, and neither is the string parsing of `Number(...)`, which is the `toNumber` parameter.
- `ExpenseApp.App.HandleUpsertBudget`: the `parseFloat` of the input that is sent is not modelled, since the request is abstract.
- `ExpenseApp.Remaining`: JavaScript subtracts in binary floating point. The model subtracts real numbers exactly.
- `localStorage`, `alert`, `console` logging, `formatDate` (locale date formatting), all JSX markup and styling, and chart.js rendering. Two display rules are kept: the Remaining line with its colour, and the chart-or-loading choice.
- The mounting and unmounting of the chart by its parent (it is shown only while a budget is loaded). `Mount` and `Unmount` are the two events.
