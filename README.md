# Finance dashboard: request layer, session store and view components

A Dafny model of the core of a browser personal-finance dashboard. The model covers:

- the request primitive `createRequest`, with its error formatter `handleError`;
- the session store and identity operations of `User`;
- the `Account.get` descriptor;
- the view components that issue requests and react to replies: the transactions page, the sidebar accounts widget, the three forms and the sidebar menu.

The browser is replaced by small stand-ins:

- **Transport.** An `Xhr` object records the calls made on it. A reply is `Option<Response<T>>`: `None` is a `null` JSON body. A reply carries its `error` field and the one field the consumer reads (`data` or `user`).
- **Storage.** The `'user'` slot is a field of `UserStore`. The JSON round trip through it is taken to be faithful. The only exception is that storing `undefined` leaves text that cannot be parsed back (`Slot.Unreadable`).
- **Collaborators.** `App`, `Entity` (`Account.list`/`create`/`remove`), `Transaction` and the `AsyncForm` base are not modelled. Calls into them appear as entries of an `Effect` trace that each component appends to, in order. Where the order across the session store and a component matters, the `Flows` module merges the store's steps and the component's effects into one timeline (`Flows.Event`), in the order the calls happen.
- **Callbacks.** Each asynchronous callback is its own `On...` method, called with the reply it receives. Nothing is assumed about the order in which replies arrive.

Other conventions:

- **Truthiness.** `if (error)` follows JavaScript truthiness (`Requests.Truthy`): an empty-string error is falsy and every object error is truthy.
- **Failure on a success path.** A success branch that dereferences a missing reply or field throws in the browser. The model stops at that point: effects that came earlier remain, and the ones after it never happen. For example, a widget update whose reply has no `data` has already cleared the list.
- **Throwing constructors.** A constructor that throws on a missing element is modelled as a factory method that returns `null`.

In a few places the code does something other than what its callers evidently expect; the model does what the code does:

- **Corrupt session data.** It is meant to read as "no user", but in `public/js/api/User.js:34-35` the catch block calls a `callback` that is not in scope, so `User.current()` throws. The model treats this as a failing call (`Lookup.Unparseable`): whatever the caller was about to do does not happen.
- **Account removal.** On success, `removeAccount` refreshes the widgets and then *clears* the page (`App.updateWidgets(); this.clear()`). It does not update the page.
- **Error reports.** An error report is not always a non-empty line. `handleError` writes nothing while the application state is `init`, and nothing for an error without own keys (the empty string, `{}`).
- **Logout without a user.** `User.logout(User.current(), ...)` with no current user sends `null` as data. `Object.entries(null)` then throws inside the try block. The exception is caught and logged, nothing is sent and the callback never fires (`UserApi.Logout`).

## Model

| member | source | states |
|---|---|---|
| `Requests.HandleError` | public/js/api/createRequest.js:1-17 | Nothing is written iff the state is `init` or the error has no own keys. Otherwise the line starts with the fixed prefix and continues with the object's values joined by spaces (or the string verbatim). A period is appended exactly when that text does not already end in one, so the line always ends in `.` |
| `Requests.Terminate` | public/js/api/createRequest.js:11-13 | A period is appended exactly when the text has a last character other than `.`; non-empty text always ends in `.` afterwards |
| `Requests.TerminateIdempotent` | public/js/api/createRequest.js:11-13 | Applying the terminal-period rule twice gives the same line as once, so a message already ending in `.` gets no second period |
| `Requests.JoinInOrder` | public/js/api/createRequest.js:5-6 | Joined values keep key order: the first value opens the joined text and the last one closes it |
| `Requests.DecimalOpensWithLeading` | public/js/api/createRequest.js:43 | `String(status)` starts with the status's most significant digit |
| `Requests.SuccessfulClass` | public/js/api/createRequest.js:43 | For three-digit codes, `startsWith('2')` holds exactly for 200..299, the Successful class of section 15.3 of RFC 9110 |
| `Requests.OnLoadEnd` | public/js/api/createRequest.js:42-50 | The callback fires iff the status numeral starts with `2`, and then receives the reply's own `error` field and the reply. Otherwise only the transport error line (prefix, code, status text, final period) is produced |
| `Requests.CallbackIffSuccessful` | public/js/api/createRequest.js:42-50 | For three-digit statuses the callback fires iff the status is 2xx |
| `Requests.NetworkFailureNeverCalledBack` | public/js/api/createRequest.js:43-49 | Status 0 (a network failure) never reaches the callback |
| `Requests.ErrorOf` | public/js/api/createRequest.js:44 | `response?.error`: a `null` reply carries no error, and any other reply yields its own `error` field |
| `Requests.HeaderCalls` | public/js/api/createRequest.js:36-40 | One `setRequestHeader` per header entry, at the entry's position, with its name and value |
| `Requests.EachHeaderOnce` | public/js/api/createRequest.js:36-40 | With distinct header names, each name is set at exactly one position |
| `Requests.Preamble` | public/js/api/createRequest.js:32-42 | The request is opened with the descriptor's method and URL, then given its response type and credentials. Next come exactly the header calls (none without headers), and the completion listener comes last |
| `Requests.CredentialsAlwaysEnabled` | public/js/api/createRequest.js:32-34 | Every request, whatever its descriptor, enables credentials after opening with the descriptor's method and URL |
| `Requests.NoSendInPreamble` | public/js/api/createRequest.js:32-52 | Nothing is sent before the completion listener is installed |
| `Requests.CreateRequest` | public/js/api/createRequest.js:23-67 | A missing `options` throws to the caller, and only then. Undefined `data` sends an empty body. Object data sends a form with exactly its entries, in order. `null` data makes `Object.entries` throw: the exception is caught, nothing is sent, and the caller sees no exception |
| `Entities.IdData` | public/js/ui/pages/TransactionsPage.js:74 | Removal data is the one-entry form `{id}` |
| `UserApi.ListFilter` | public/js/ui/widgets/AccountsWidget.js:116 | The filter passed to `Account.list` is the current user, or `null` when there is none. When `User.current()` throws, no list call is made |
| `UserApi.Descriptors` | public/js/api/User.js:43-114 | `fetch` is a GET of `/user/current` with no data. `login`, `register` and `logout` POST the caller's data to `/user/login`, `/user/register` and `/user/logout`. All expect JSON |
| `UserApi.Dispatch` | public/js/api/createRequest.js:52-62 | A User descriptor handed to `createRequest` opens its URL first. What is then sent (empty body, the data's form, or nothing when the data is `null`) follows the descriptor's data |
| `UserApi.Fetch` | public/js/api/User.js:43-57 | `User.fetch` opens a GET of `/user/current` and sends an empty body |
| `UserApi.Login` | public/js/api/User.js:65-80 | `User.login` opens a POST of `/user/login` and sends the caller's data as the form |
| `UserApi.Register` | public/js/api/User.js:88-103 | `User.register` opens a POST of `/user/register` and sends the caller's data as the form |
| `UserApi.Logout` | public/js/api/User.js:109-124 | `User.logout` opens a POST of `/user/logout`. `null` data (no current user) is never sent |
| `UserApi.UserStore.Current` | public/js/api/User.js:31-37 | `null` iff the slot is empty. A user iff one is stored, and it is the stored one |
| `UserApi.UserStore.SetCurrent` | public/js/api/User.js:15-17 | After storing a user, `current()` returns that user. Storing `undefined` leaves an unreadable slot |
| `UserApi.UserStore.UnsetCurrent` | public/js/api/User.js:23-25 | After removal, `current()` returns `null` |
| `UserApi.UserStore.OnFetchReply` | public/js/api/User.js:48-55 | The slot holds `response.user` when present and is cleared otherwise, whatever the error says. The callback then gets no argument |
| `UserApi.UserStore.AcceptUser` | public/js/api/User.js:71-78 | Shared login/register callback. A truthy error is forwarded and nothing is stored. Otherwise `response.user` is written first and the callback is then called with no error. A `null` reply throws before either |
| `UserApi.UserStore.OnLoginReply` | public/js/api/User.js:71-78 | Login error: slot unchanged and the error forwarded. A `null` reply throws before anything is stored or called back. Otherwise the slot is written with `response.user` (unreadable when it is absent) before the callback is called with no error |
| `UserApi.UserStore.OnRegisterReply` | public/js/api/User.js:94-101 | Same as login: an error leaves the slot untouched and is forwarded; a `null` reply stores nothing and calls nothing back; otherwise the user is written (unreadable when absent) and then the callback fires with no error |
| `UserApi.UserStore.OnLogoutReply` | public/js/api/User.js:115-122 | Logout error: slot unchanged and the error forwarded. Success: the slot is cleared before the callback is called with no error |
| `AccountApi.Get` | public/js/api/Account.js:14-21 | GET of `/account/` + id, with responseType `json`, no headers and no data. The caller's callback is passed through unchanged |
| `AccountApi.GetUrlNamesId` | public/js/api/Account.js:7-16 | The requested URL names exactly the given id under the base path `/account` |
| `AccountApi.Fetch` | public/js/api/Account.js:14-21 | Dispatched, `get` opens a GET of its URL and sends an empty body |
| `TransactionsPageUi.NewTransactionsPage` | public/js/ui/pages/TransactionsPage.js:13-20 | A missing element throws. Otherwise the element, the title text and the rows are kept as given, and nothing is cached or requested |
| `TransactionsPageUi.TransactionsPage.Render` | public/js/ui/pages/TransactionsPage.js:108-132 | Falsy options change nothing and request nothing. Truthy options are cached, and one account fetch and one transaction-list fetch are issued for the same `account_id`. Neither region changes yet |
| `TransactionsPageUi.TransactionsPage.Update` | public/js/ui/pages/TransactionsPage.js:25-27 | Replays `render` with the cached options |
| `TransactionsPageUi.TransactionsPage.OnAccountReply` | public/js/ui/pages/TransactionsPage.js:112-118 | An error is reported and the title left untouched. Otherwise the title becomes the account's name. The list is never touched |
| `TransactionsPageUi.TransactionsPage.OnTransactionsReply` | public/js/ui/pages/TransactionsPage.js:122-128 | An error is reported and the list left untouched. Otherwise the list becomes the reply's data. The title is never touched |
| `TransactionsPageUi.TransactionsPage.Clear` | public/js/ui/pages/TransactionsPage.js:139-143 | Empty list, title `Название счёта`, no cached options |
| `TransactionsPageUi.TransactionsPage.RemoveAccount` | public/js/ui/pages/TransactionsPage.js:60-77 | With no cached options or a declined confirmation, nothing happens. Otherwise it removes `{id: account_id}` |
| `TransactionsPageUi.TransactionsPage.OnAccountRemoved` | public/js/ui/pages/TransactionsPage.js:65-72 | An error is reported and the cached options kept. Success refreshes the widgets and then clears the page |
| `TransactionsPageUi.TransactionsPage.RemoveTransaction` | public/js/ui/pages/TransactionsPage.js:85-100 | A declined confirmation issues no request. Otherwise it removes `{id}` |
| `TransactionsPageUi.TransactionsPage.OnTransactionRemoved` | public/js/ui/pages/TransactionsPage.js:89-96 | An error is only reported. Success updates the accounts widget and then this page (re-fetching with the cached options) |
| `TransactionsPageUi.TransactionsPage.RenderTitle` | public/js/ui/pages/TransactionsPage.js:148-152 | The title region holds the given name; nothing else changes |
| `TransactionsPageUi.TransactionsPage.RenderTransactions` | public/js/ui/pages/TransactionsPage.js:201-212 | The list holds exactly one entry per item, in input order; no earlier entry survives |
| `TransactionsPageUi.ClearThenUpdate` | public/js/ui/pages/TransactionsPage.js:139-143 | `update` after `clear` requests nothing and changes nothing |
| `TransactionsPageUi.DeclinedRemovals` | public/js/ui/pages/TransactionsPage.js:60-100 | Declining either confirmation leaves all page state and the request trace unchanged |
| `AccountsWidgetUi.FirstActive` | public/js/ui/widgets/AccountsWidget.js:97 | `querySelector('.account.active')` finds the first active entry, or none when no entry is active |
| `AccountsWidgetUi.FindByName` | public/js/ui/widgets/AccountsWidget.js:109-111 | The index of the first listed account with the clicked name. None iff no account has that name |
| `AccountsWidgetUi.DuplicateNamesResolveToFirst` | public/js/ui/widgets/AccountsWidget.js:109-111 | Of two accounts with the same name, selection never resolves to the later one |
| `AccountsWidgetUi.OthersHaveNoAccounts` | public/js/ui/widgets/AccountsWidget.js:83-87 | After clearing, no account entry (active or not) remains, and clearing again changes nothing |
| `AccountsWidgetUi.ViewsOfItems` | public/js/ui/widgets/AccountsWidget.js:141-143 | Rendered items show exactly the accounts they were made from, none active |
| `AccountsWidgetUi.RenderedAfterClear` | public/js/ui/widgets/AccountsWidget.js:66-71 | Clearing then rendering shows exactly the listed accounts, in order, with no marker. The other children are kept |
| `AccountsWidgetUi.MarkerMoved` | public/js/ui/widgets/AccountsWidget.js:97-101 | If at most one entry was active, exactly one is active after the move, and it is the clicked one |
| `AccountsWidgetUi.NewAccountsWidget` | public/js/ui/widgets/AccountsWidget.js:16-24 | A missing element throws, and so does a failing `User.current()` in the update the constructor starts. Otherwise the widget updates itself at once: one listing request for a logged-in user, none for an anonymous one |
| `AccountsWidgetUi.AccountsWidget.Update` | public/js/ui/widgets/AccountsWidget.js:59-76 | No request unless a user is logged in; otherwise it lists accounts with that user as the filter |
| `AccountsWidgetUi.AccountsWidget.OnListReply` | public/js/ui/widgets/AccountsWidget.js:63-72 | An error is reported and the entries left untouched. Otherwise the account entries are removed and the listed accounts are appended in order; other children stay |
| `AccountsWidgetUi.AccountsWidget.Clear` | public/js/ui/widgets/AccountsWidget.js:83-87 | Removes every account entry and no other child |
| `AccountsWidgetUi.AccountsWidget.RenderItem` | public/js/ui/widgets/AccountsWidget.js:141-143 | Appends exactly one entry at the end |
| `AccountsWidgetUi.AccountsWidget.OnSelectAccount` | public/js/ui/widgets/AccountsWidget.js:96-116 | The first active entry loses its marker, then the clicked entry gains it; every other entry (other children and any later active entries) is unchanged. With at most one active before, the clicked one is the only active one after. No entry changes its account. The clicked name is kept for the lookup, and accounts are listed with the current user (nothing is listed when `User.current()` throws) |
| `AccountsWidgetUi.AccountsWidget.OnSelectReply` | public/js/ui/widgets/AccountsWidget.js:105-114 | An error is reported. Otherwise the page is shown with the id of the first account with the clicked name; with no match nothing is shown |
| `AccountsWidgetUi.UpdateTwice` | public/js/ui/widgets/AccountsWidget.js:59-87 | Two successful updates in a row show exactly the second listing: no duplicates and no stale entries |
| `CreateTransactionFormUi.OptionsHtml` | public/js/ui/forms/CreateTransactionForm.js:33-39 | One option per account, in order, with value `id` and text `name` |
| `CreateTransactionFormUi.NewCreateTransactionForm` | public/js/ui/forms/CreateTransactionForm.js:10-18 | A missing element throws. Otherwise the account listing is requested at construction, before any submission |
| `CreateTransactionFormUi.CreateTransactionForm.RenderAccountsList` | public/js/ui/forms/CreateTransactionForm.js:24-45 | Lists accounts with the current user as the filter |
| `CreateTransactionFormUi.CreateTransactionForm.OnAccountsReply` | public/js/ui/forms/CreateTransactionForm.js:27-42 | An error is reported and the select left unchanged. Otherwise the options are replaced by one per account, in reply order |
| `CreateTransactionFormUi.CreateTransactionForm.OnSubmit` | public/js/ui/forms/CreateTransactionForm.js:53-71 | Calls `Transaction.create` with the submitted data unchanged |
| `CreateTransactionFormUi.CreateTransactionForm.OnCreated` | public/js/ui/forms/CreateTransactionForm.js:54-67 | An error is only reported. Success resets the form, closes `newIncome` and `newExpense` only if they are registered, then updates the accounts widget and the transactions page |
| `CreateAccountFormUi.CreateAccountForm.OnSubmit` | public/js/ui/forms/CreateAccountForm.js:23 | Calls `Account.create` with the submitted data unchanged |
| `CreateAccountFormUi.CreateAccountForm.OnCreated` | public/js/ui/forms/CreateAccountForm.js:12-21 | Exactly one branch runs. An error is only reported. Success resets, closes `createAccount`, updates the accounts widget and then the forms |
| `RegisterFormUi.RegisterForm.OnSubmit` | public/js/ui/forms/RegisterForm.js:23 | Calls `User.register` with the submitted data unchanged |
| `RegisterFormUi.RegisterForm.OnRegistered` | public/js/ui/forms/RegisterForm.js:13-20 | An error is only reported. Success resets, closes `register` and sets the state `user-logged` |
| `SidebarUi.HandlerFor` | public/js/ui/Sidebar.js:40-64 | The first class matched, in the order login, register, logout, picks the handler. An item with none of them gets no handler |
| `SidebarUi.InitAuthLinks` | public/js/ui/Sidebar.js:36-66 | Every menu item's `onclick` is the handler its classes select |
| `SidebarUi.LogoutData` | public/js/ui/Sidebar.js:60 | The logout data is `User.current()`: the user's entries, or `null`. When that call throws, logout is not reached |
| `SidebarUi.Sidebar.Click` | public/js/ui/Sidebar.js:43-61 | Login opens modal `login`, register opens modal `register`, logout sends the current user as data |
| `SidebarUi.Sidebar.OnLoggedOut` | public/js/ui/Sidebar.js:52-58 | An error is reported and the state is left alone; success sets the state `init` |
| `SidebarUi.Toggle` | public/js/ui/Sidebar.js:24-25 | `classList.toggle` flips membership of one class and no other |
| `SidebarUi.FlipTwice` | public/js/ui/Sidebar.js:23-26 | Two clicks restore the original class set |
| `SidebarUi.FlipSwapsState` | public/js/ui/Sidebar.js:23-26 | A body in exactly one of the open/collapsed states is in exactly the other after a click; other classes are untouched |
| `SidebarUi.DocumentBody.ToggleSidebar` | public/js/ui/Sidebar.js:20-27 | One click flips both `sidebar-open` and `sidebar-collapse` |
| `Flows.RegisterReplyArrives` | public/js/api/User.js:94-101 | The returned timeline interleaves the store's steps and the form's effects in call order. On success it is: slot written with the user (unreadable when the reply has none), callback with no error, then the form resets, closes `register` and enters `user-logged`. On error: the error is forwarded with the slot kept, then the form only reports. A `null` reply gives an empty timeline and leaves the session and the form untouched |
| `Flows.LogoutReplyArrives` | public/js/api/User.js:115-122 | The returned timeline interleaves the store's steps and the sidebar's effects in call order. On success it is: slot emptied, callback with no error, then `setState('init')`. On error: the error is forwarded with the slot kept, then the sidebar only reports |

## Left out

- `XMLHttpRequest`, `FormData`, `localStorage` and `JSON.parse`/`stringify` are replaced by the `Xhr` call trace, form-entry sequences and the `Slot` field. The JSON round trip of a stored user is assumed faithful.
- Exceptions that `xhr.open` or `xhr.send` themselves raise (an invalid method or URL) are not modelled. They are browser behaviour outside the source. The one exception the source itself provokes inside the try block, `Object.entries(null)`, is modelled.
- `console.error` as an output channel is not modelled. `handleError`'s line and the transport error line are specified as values.
- `handleError` with a non-string error value (numbers, nested objects, arrays) is not modelled: error values are key/message maps or strings. Called with `undefined`, it would throw at `Object.keys`; every caller first checks that the error is truthy.
- `UserApi.UserStore.AcceptUser`: treats a success reply whose `user` field is absent or `null` alike, as `undefined`, which leaves the slot unreadable. A `null` user would in fact be stored as the text `null` and read back as no user.
- `UserApi.UserStore.OnLoginReply`: inherits `AcceptUser`'s treatment of an absent or `null` `user` field as `undefined`.
- `UserApi.UserStore.OnRegisterReply`: the same as `OnLoginReply`.
- Replies whose fields have the wrong JSON shape (for example, `data` not being a list) are not modelled. Each consumer's reply is typed with the shape it reads. Only a `null` reply and a missing field are modelled.
- The markup builders `getTransactionHTML` and `getAccountHTML` (and their lack of escaping) are not modelled. A rendered entry is the record it shows.
- `formatDate` is not modelled: it depends on `Intl.DateTimeFormat` with the `ru-RU` locale.
- `window.confirm` is a boolean argument of the removal methods.
- `registerEvents` (click delegation through `closest`, the `.remove-account` and `.create-account` buttons) and `Sidebar.init` are DOM wiring. The handlers they install are modelled as the methods they call.
- The interleaving of the two fetches in `render` and any other in-flight concurrency are not modelled. Each reply is a separate method call, with no ordering between them.
- The `App` registry and application state, the `AsyncForm` base (submit interception and field serialisation), `Entity` (`Account.list`, `create`, `remove`) and `Transaction` are not part of this model. Calls into them are recorded as `Effect`s.
- `AccountsWidgetUi.AccountsWidget.Clear`: the widget's children are a flat list. `querySelectorAll('.account')` would also find nested entries.
