# ismis-frontend core in Dafny

This project models the logic under the rendering of the ministry of sports' information-system
dashboard (`ismis-frontend`, a React single-page application). It covers three parts:

- **The training list** (`src/pages/Training.jsx`). Two in-memory lists of training records are
  kept: the full `trainings` and the displayed `filteredTrainings`. Each server reply patches them:
  - load replaces both;
  - add appends;
  - edit merges by `id`;
  - delete filters by `id`.

  There is also a six-field, case-insensitive search and a pagination over the displayed list.
  `Training.TrainingPage` is a class whose methods take the server's reply as a parameter. The list
  operations they use (`UpdateById`, `RemoveById`, `Search`, `PageItems`) are functions with their
  own lemmas.
- **The forms.** Each form has its own module:
  - the user editor (`EditUser`);
  - the federation form (`FederationForm`);
  - the settings page's profile load, password change and photo upload (`Settings`);
  - the sign-in page (`LoginPage`);
  - the player/staff form (`PlayerStaffForm`).

  Every validator is a function with a fixed check order and one message per failure. Each form's
  state is a class whose handlers update it in place. The e-mail pattern
  `^[^\s@]+@[^\s@]+\.[^\s@]+$` is a hand-written predicate (`Email.IsEmail`), proved equal to the
  pattern's meaning (`Email.MatchesRegex`).
- **The session.** Two modules model it:
  - the `AuthProvider` context (`AuthContext`);
  - the stand-alone `useAuth` hook (`UseAuth`).

  Both work over the shared browser state `Browser.Env`: the `localStorage` map and two
  `Authorization` headers. The provider sets the header of the client exported by `lib/axios`, the
  hook that of the global `axios` object. `src/lib/axios` is not part of this model; the model
  assumes the two are different objects, so that neither operation touches the other's header.
  Each operation is a pure step function on a snapshot of that state. The class methods are proved
  to perform exactly that step. The header invariants hold for each module on its own; module
  `SharedSession` shows how an operation of one breaks the other's.

`Js` holds the slice of JavaScript semantics the handlers rely on: property reads, truthiness, `||`,
`String(v)`, `toLowerCase`, `includes`, `startsWith` and spread assignment.
`Http` turns a request's outcome into data: success with a body, no response, or a response that
may carry a `message`.

## Model

| member | source | states |
|---|---|---|
| Http.ErrorText | src/components/EditUserModal.jsx:45 | the server's `message` when there is one and it is non-empty, else the fallback (an empty message is falsy); an error raised locally always gives the fallback |
| Browser.StoredToken | src/contexts/AuthContext.jsx:18-19 | a token exists exactly when `token` is stored and non-empty (an empty string is falsy) |
| Email.IsEmailIffRegex | src/components/EditUserModal.jsx:70-71 | the hand-written check accepts exactly the strings `^[^\s@]+@[^\s@]+\.[^\s@]+$` matches |
| Email.IsEmailMatches | src/components/EditUserModal.jsx:70-71 | every accepted string splits as local `@` A `.` B with non-empty parts free of whitespace and `@` |
| Email.MatchesIsEmail | src/components/EditUserModal.jsx:70-71 | every string the pattern matches is accepted |
| Email.IsEmailOf | src/components/EditUserModal.jsx:70-71 | `local@a.b` is accepted for any non-empty plain parts |
| Email.UndefinedIsNotEmail | src/components/forms/AddFederationForm.jsx:53-54 | `String(undefined)`, what the pattern tests for a missing field, is rejected |
| Email.DomainNeedsDot | src/components/EditUserModal.jsx:70-71 | no dot in the domain, a dot at its edge, or a second `@` is rejected |
| Pagination.TotalPages | src/pages/Training.jsx:145 | the page count is the least count whose pages cover the list, and 0 exactly for an empty list (`Math.ceil`) |
| Pagination.Slice | src/pages/Training.jsx:144 | `slice` clips both bounds to the length and copies the elements in between |
| Pagination.PageItems | src/pages/Training.jsx:142-144 | page k holds at most `itemsPerPage` items, exactly `list[(k-1)n .. min(kn, len))` |
| Pagination.PageNonEmptyIffInRange | src/pages/Training.jsx:142-145 | a page has items if and only if its number is at most the page count |
| Pagination.PagesUpToPrefix | src/pages/Training.jsx:142-144 | pages 1..k together are the first `min(kn, len)` items |
| Pagination.AllPagesReproduceList | src/pages/Training.jsx:142-145 | pages 1..totalPages concatenated give back the list exactly |
| Pagination.ItemOnItsPage | src/pages/Training.jsx:142-144 | item x is on page `x / n + 1` at position `x % n` |
| Pagination.PrevEnabled | src/pages/Training.jsx:229-230 | from a page at least 1, Previous is enabled exactly when the page before is at least 1 |
| Pagination.NextEnabled | src/pages/Training.jsx:236-237 | from a page no later than the last, Next is enabled exactly when the page after is still a page |
| Pagination.NextLeavesRange | src/pages/Training.jsx:234-237 | with no items Next is enabled on page 1 and leads past the last page |
| Training.MergeMeaning | src/pages/Training.jsx:93 | `{ ...t, ...patch }` has the keys of both, the patch's values winning |
| Training.UpdateById | src/pages/Training.jsx:92-94 | the edit keeps length and order; records with the id are merged with the reply, the rest are kept |
| Training.UpdateByIdMerges | src/pages/Training.jsx:92-94 | each record with the id is the merge of its old fields and the reply's; every other record is unchanged |
| Training.UpdateKeepsIds | src/pages/Training.jsx:92-94 | a reply that does not change `id` keeps every record's id |
| Training.RemoveById | src/pages/Training.jsx:114 | the delete never lengthens the list |
| Training.RemoveByIdCounts | src/pages/Training.jsx:114 | each record occurs as often as before when its id differs, and never otherwise |
| Training.RemoveByIdMembers | src/pages/Training.jsx:114 | exactly the records whose id differs remain |
| Training.RemoveByIdAppend | src/pages/Training.jsx:114 | delete distributes over concatenation, so the kept records stay in order |
| Training.RemoveByIdAbsent | src/pages/Training.jsx:114 | a list without the id is left exactly as it was |
| Training.MatchAny | src/pages/Training.jsx:130-135 | the chain of `or`s throws exactly when it reaches a non-string field with no match before it, and is true exactly when some field matches with only strings before it |
| Training.MatchAnyMeaning | src/pages/Training.jsx:130-135 | without a throw the chain is true exactly when some field contains the query, ignoring case |
| Training.MatchAnyThrows | src/pages/Training.jsx:130-135 | the chain throws only when some field is not a string |
| Training.Filter | src/pages/Training.jsx:129-136 | a completed `filter` is never longer than its input |
| Training.FilterSucceeds | src/pages/Training.jsx:129-136 | `filter` completes when the callback completes on every element |
| Training.FilterThrows | src/pages/Training.jsx:129-136 | `filter` throws only when the callback throws on some element |
| Training.FilterCompleted | src/pages/Training.jsx:129-136 | a completed `filter` ran the callback to completion on every element |
| Training.FilterMembers | src/pages/Training.jsx:129-136 | a completed `filter` keeps exactly the elements for which the callback returned true |
| Training.FilterAppend | src/pages/Training.jsx:129-136 | `filter` distributes over concatenation |
| Training.FilterAll | src/pages/Training.jsx:129-136 | a callback true on every element keeps the whole list |
| Training.FilterSame | src/pages/Training.jsx:129-136 | callbacks that agree on the list filter it alike |
| Training.SearchSucceeds | src/pages/Training.jsx:128-136 | the search cannot throw when all six fields of every record are strings |
| Training.SearchThrows | src/pages/Training.jsx:128-136 | the search throws only when some record has a non-string searched field |
| Training.Search | src/pages/Training.jsx:128-136 | a completed search keeps exactly the records one of whose six fields contains the query, ignoring case |
| Training.SearchAppend | src/pages/Training.jsx:128-136 | the search distributes over concatenation, so the kept records keep their original order |
| Training.SearchEmptyQuery | src/pages/Training.jsx:128-136 | the empty query keeps every training, in order, when every title is a string |
| Training.FieldMatchesLowered | src/pages/Training.jsx:130 | a field matches a query exactly when it matches the lowered query |
| Training.MatchAnyLowered | src/pages/Training.jsx:130-135 | the chain gives the same answer for a query and its lowered form |
| Training.SearchCaseInsensitive | src/pages/Training.jsx:128-136 | a query and its lowered form select the same records |
| Training.TitleMatchSkipsPeriod | src/pages/Training.jsx:130 | a record whose title matches is kept without its `period` being read |
| Training.NonStringPeriodThrows | src/pages/Training.jsx:130-135 | a record that misses in the first five fields and has a non-string `period` makes the search throw |
| Training.PeriodObjectBreaksSearch | src/pages/Training.jsx:135 | with `period` the `{startDate, endDate}` object the table renders, "a" finds the record and "z" throws |
| Training.MatchAnySearchable | src/pages/Training.jsx:130-135 | for a record with six string fields the chain answers whether it matches |
| Training.SearchPair | src/pages/Training.jsx:129-136 | a matching and a non-matching record filter to the matching one |
| Training.SearchByOrganiser | src/pages/Training.jsx:129-136 | the query "fed a" keeps the training organised by "Fed A" and drops the one by "Fed B" |
| Training.DeleteScenario | src/pages/Training.jsx:114 | deleting id 1 from `[{id: 1}, {id: 2}]` leaves `[{id: 2}]` |
| Training.TrainingPage.constructor | src/pages/Training.jsx:29-42 | the page starts loading, with empty lists, empty search, page 1 of size 10 and nothing selected |
| Training.TrainingPage.CurrentItems | src/pages/Training.jsx:142-144 | the rows shown are the current page of the displayed list, at most `itemsPerPage` of them |
| Training.TrainingPage.PageCount | src/pages/Training.jsx:145 | the page count covers the displayed list with no empty page at the end |
| Training.TrainingPage.Load | src/pages/Training.jsx:45-62 | success sets both lists to the response; failure keeps them and sets the error banner; loading ends either way |
| Training.TrainingPage.AddTraining | src/pages/Training.jsx:65-85 | success appends the server's record and shows the full list; failure keeps both lists; `isSubmitting` ends false |
| Training.TrainingPage.SubmitForm | src/pages/Training.jsx:266-273 | with a training selected the data waits for confirmation and nothing else changes; otherwise it is added, with the success or failure message of the add |
| Training.TrainingPage.SelectForEdit | src/pages/Training.jsx:206-209 | the row becomes the selected training; the page invariant is kept |
| Training.TrainingPage.CloseForm | src/pages/Training.jsx:256-261 | closing clears the selection unless a request is in flight; the page invariant is kept |
| Training.TrainingPage.SelectForDelete | src/pages/Training.jsx:210-213 | the row becomes the training to delete; the page invariant is kept |
| Training.TrainingPage.ConfirmEdit | src/pages/Training.jsx:88-107 | success replaces both lists by the by-id merge and clears the selection; failure or no selection changes neither list; `isSubmitting` ends false |
| Training.TrainingPage.ConfirmDelete | src/pages/Training.jsx:110-125 | success removes the id from both lists; failure or no record changes nothing; `isSubmitting` ends false |
| Training.TrainingPage.SearchFor | src/pages/Training.jsx:128-139 | the term is stored; a completed search shows its result from page 1; a throwing one leaves list and page |
| Training.TrainingPage.PrevPage | src/pages/Training.jsx:229-230 | Previous goes back one page except on page 1 |
| Training.TrainingPage.NextPage | src/pages/Training.jsx:236-237 | Next goes forward one page unless the page equals the page count |
| Training.AddDropsActiveSearch | src/pages/Training.jsx:69-70 | after a search that shows one of two trainings, an add shows all three |
| Training.NextPastLastPage | src/pages/Training.jsx:236-237 | with no trainings there are 0 pages and Next moves to page 2 |
| EditUser.ValidateUser | src/components/EditUserModal.jsx:63-75 | missing fields are reported first; then a bad address; passes exactly when filled and matching the pattern |
| EditUser.PopulatedForm | src/components/EditUserModal.jsx:29-35 | the form has exactly name, email, group and status, copied from the user |
| EditUser.PopulatedFormPasses | src/components/EditUserModal.jsx:29-75 | a form copied from a complete user with a valid address passes |
| EditUser.EditUserModal.constructor | src/components/EditUserModal.jsx:12-22 | the initial four empty fields, groups loading and no error |
| EditUser.EditUserModal.Open | src/components/EditUserModal.jsx:27-53 | the form copies the user's four fields; the groups reply fills `groups` or sets the error; group loading ends |
| EditUser.EditUserModal.HandleChange | src/components/EditUserModal.jsx:93-99 | only the named field changes |
| EditUser.EditUserModal.HandleSubmit | src/components/EditUserModal.jsx:56-90 | an invalid form sends nothing; a valid one is PUT to `/users/<id>`; success hands the reply to `onEdit`, failure sets the error; `loading` ends false |
| FederationForm.InitialForm | src/components/forms/AddFederationForm.jsx:7-14 | `initialData` when given, else five empty fields and no `website` or `loginEmail` |
| FederationForm.WebsiteError | src/components/forms/AddFederationForm.jsx:48-50 | an absent or empty website passes, a string starting with "http" passes, any other non-empty string is rejected |
| FederationForm.ValidateFederation | src/components/forms/AddFederationForm.jsx:43-56 | required fields first, then website, then login e-mail, each failure with its own message; passes exactly when all three pass |
| FederationForm.WebsitePasses | src/components/forms/AddFederationForm.jsx:48 | an empty, absent or "http"-prefixed website passes |
| FederationForm.UntouchedEmailRejected | src/components/forms/AddFederationForm.jsx:53-56 | with no `loginEmail` the form is rejected at the e-mail check |
| FederationForm.DefaultFormRejected | src/components/forms/AddFederationForm.jsx:7-56 | the default form is rejected for missing fields, and still at the e-mail check once they are filled |
| FederationForm.FederationFormState.constructor | src/components/forms/AddFederationForm.jsx:7-14 | the form starts as `initialData` or the defaults |
| FederationForm.FederationFormState.HandleChange | src/components/forms/AddFederationForm.jsx:18-24 | only the named field changes |
| FederationForm.FederationFormState.HandleFileChange | src/components/forms/AddFederationForm.jsx:26-29 | the first file becomes the logo; with no file nothing changes |
| FederationForm.FederationFormState.HandleSubmit | src/components/forms/AddFederationForm.jsx:38-62 | `onSubmit` gets the form exactly when all checks pass, else the first failure's message is shown |
| Settings.ProfileFrom | src/pages/Settings.jsx:50-58 | six fields copied from the reply, the photo falling back to the default picture when falsy |
| Settings.PasswordError | src/pages/Settings.jsx:99-107 | mismatch is reported first, then a new password under 8 characters; passes exactly otherwise |
| Settings.ResetFormIsRefused | src/pages/Settings.jsx:104-130 | the emptied form is refused as too short |
| Settings.SettingsPage.constructor | src/pages/Settings.jsx:8-25 | loading, the default profile and empty passwords |
| Settings.SettingsPage.LoadUserData | src/pages/Settings.jsx:27-68 | no token means no request and no change; with one the request carries `Bearer <token>` and success replaces the profile; loading ends false |
| Settings.SettingsPage.PasswordSubmit | src/pages/Settings.jsx:96-136 | a failed check returns its message before `isSubmitting` is set; success empties the form; failure keeps it |
| Settings.SettingsPage.PhotoChange | src/pages/Settings.jsx:139-166 | a chosen file and a successful upload change only `photo` |
| AuthContext.LogoutStep | src/contexts/AuthContext.jsx:54-62 | token and header gone, user null, route "/login", other stored keys kept |
| AuthContext.CheckAuthStep | src/contexts/AuthContext.jsx:16-31 | no token: only loading changes; with one the header is set, success sets the user and failure logs out; loading ends false |
| AuthContext.LoginStep | src/contexts/AuthContext.jsx:33-52 | success stores the token, sets the header and user and goes to "/"; failure throws the server's message or "Login failed" and changes nothing |
| AuthContext.LogoutIdempotent | src/contexts/AuthContext.jsx:54-62 | logging out twice equals logging out once |
| AuthContext.CheckAuthSyncs | src/contexts/AuthContext.jsx:16-31 | after `checkAuth` the header agrees with the stored token |
| AuthContext.ApplyKeepsSynced | src/contexts/AuthContext.jsx:16-62 | each operation keeps the header equal to "Bearer " + token |
| AuthContext.ApplyKeepsOtherKeys | src/contexts/AuthContext.jsx:39-56 | each operation touches only the `token` key of storage |
| AuthContext.RunKeepsInvariants | src/contexts/AuthContext.jsx:16-62 | any sequence of operations keeps the header in step and other stored keys unchanged |
| AuthContext.ChildrenStayRendered | src/contexts/AuthContext.jsx:12-31 | once `checkAuth` has run the children are rendered for good |
| AuthContext.StaysRendered | src/contexts/AuthContext.jsx:72-74 | once loading is false no operation hides the children |
| AuthContext.UseAuth | src/contexts/AuthContext.jsx:78-84 | throws exactly outside a provider, else returns the provider's value |
| AuthContext.AuthProvider.constructor | src/contexts/AuthContext.jsx:8-9 | no user and loading |
| AuthContext.AuthProvider.CheckAuth | src/contexts/AuthContext.jsx:16-31 | performs `CheckAuthStep`; the global axios header is untouched |
| AuthContext.AuthProvider.Login | src/contexts/AuthContext.jsx:33-52 | performs `LoginStep` |
| AuthContext.AuthProvider.Logout | src/contexts/AuthContext.jsx:54-62 | performs `LogoutStep` |
| UseAuth.Failed | src/hooks/useAuth.js:33-38 | a failure ends loading, records the message or fallback and rethrows the error |
| UseAuth.LogoutStep | src/hooks/useAuth.js:103-107 | token, header and user cleared; loading, error and every other key kept, and no key added; no navigation |
| UseAuth.LoginStep | src/hooks/useAuth.js:12-39 | loading ends; success stores the token and sets the header to carry it; failure keeps token, header and user and sets `error` |
| UseAuth.FetchUserStep | src/hooks/useAuth.js:42-65 | loading ends, storage kept; without a truthy token it throws "No token found" and records "Failed to fetch user data"; with one the header carries it |
| UseAuth.RequestStep | src/hooks/useAuth.js:68-101 | loading ends, session untouched; the reply is returned exactly when it is a success, and only then is `error` clear |
| UseAuth.LoginOutcome | src/hooks/useAuth.js:12-39 | success stores the token, sets the header and user and returns the data; failure keeps them, sets the error and rethrows |
| UseAuth.FetchUserWithoutToken | src/hooks/useAuth.js:46-50 | no token: nothing sent or changed, throws "No token found", error reads "Failed to fetch user data" |
| UseAuth.FetchUserWithToken | src/hooks/useAuth.js:46-58 | with a token the header carries it and success sets the user |
| UseAuth.PasswordRequestsKeepSession | src/hooks/useAuth.js:68-100 | forgot/reset password never change token, header or user |
| UseAuth.CallBookkeeping | src/hooks/useAuth.js:12-100 | every request call ends with loading off and error empty exactly when it returned |
| UseAuth.CallsKeepHeaderInStep | src/hooks/useAuth.js:12-107 | every operation keeps the header equal to "Bearer " + token |
| UseAuth.LogoutIdempotent | src/hooks/useAuth.js:103-107 | logging out twice equals logging out once |
| UseAuth.AuthHook.constructor | src/hooks/useAuth.js:7-9 | not loading, no error, no user |
| UseAuth.AuthHook.Start | src/hooks/useAuth.js:13-14 | loading set and error cleared |
| UseAuth.AuthHook.Fail | src/hooks/useAuth.js:33-38 | error set to the message or fallback and loading cleared |
| UseAuth.AuthHook.Login | src/hooks/useAuth.js:12-39 | performs `LoginStep`; the `lib/axios` header is untouched |
| UseAuth.AuthHook.FetchUser | src/hooks/useAuth.js:42-65 | performs `FetchUserStep` |
| UseAuth.AuthHook.ForgotPassword | src/hooks/useAuth.js:68-82 | performs the request step |
| UseAuth.AuthHook.ResetPassword | src/hooks/useAuth.js:85-100 | performs the request step |
| UseAuth.AuthHook.PasswordRequest | src/hooks/useAuth.js:68-100 | a request whose reply is only passed back |
| UseAuth.AuthHook.Logout | src/hooks/useAuth.js:103-107 | performs `LogoutStep` |
| SharedSession.HookLogoutDesyncsProvider | src/hooks/useAuth.js:103-106 | a hook logout leaves a signed-in provider's header carrying a token no longer stored |
| SharedSession.HookLoginDesyncsProvider | src/hooks/useAuth.js:21-27 | a hook login with a new token leaves a signed-in provider's header carrying the old token |
| SharedSession.ProviderLogoutDesyncsHook | src/contexts/AuthContext.jsx:55-57 | a provider logout leaves a signed-in hook's header carrying a token no longer stored |
| LoginPage.Submit | src/pages/auth/Login.jsx:23-42 | accepted exactly on the development credentials: storage gets `isAuthenticated` and `user` and the route is "/dashboard"; otherwise only an alert |
| LoginPage.RememberMeIgnored | src/pages/auth/Login.jsx:23-42 | the outcome does not depend on "remember me" |
| LoginPage.SubmitWritesNoToken | src/pages/auth/Login.jsx:30-35 | no `token` is written and only `isAuthenticated` and `user` may change |
| LoginPage.InputValue | src/pages/auth/Login.jsx:45-49 | a checkbox stores `checked`, any other input its value |
| LoginPage.OnlyExactCredentials | src/pages/auth/Login.jsx:18-28 | the untouched form, another case and a trailing space are refused; the exact pair is accepted |
| LoginPage.LoginForm.constructor | src/pages/auth/Login.jsx:11-15 | empty address and password, "remember me" off |
| LoginPage.LoginForm.HandleSubmit | src/pages/auth/Login.jsx:23-42 | performs `Submit` on the storage and route; headers untouched |
| LoginPage.LoginForm.HandleChange | src/pages/auth/Login.jsx:44-50 | only the named field changes, to `InputValue` |
| PlayerStaffForm.Defaulted | src/components/forms/AddPlayerStaffForm.jsx:16-22 | each key takes the source's truthy value or "" |
| PlayerStaffForm.InitialForm | src/components/forms/AddPlayerStaffForm.jsx:6-39 | 21 flat fields defaulted from `initialData`, and `location` and `joinDate` defaulted subfield by subfield |
| PlayerStaffForm.InitialFormIdempotent | src/components/forms/AddPlayerStaffForm.jsx:6-39 | opening the form on its own output gives the same form |
| PlayerStaffForm.Section | src/components/forms/AddPlayerStaffForm.jsx:44 | the text before the first dot |
| PlayerStaffForm.Field | src/components/forms/AddPlayerStaffForm.jsx:44 | the text between the first dot and the next, maximal: the name ends there or goes on with a dot |
| PlayerStaffForm.SplitSingleDot | src/components/forms/AddPlayerStaffForm.jsx:44 | `section.field` splits back into section and field |
| PlayerStaffForm.ApplyChange | src/components/forms/AddPlayerStaffForm.jsx:41-63 | a dotted name sets one subfield whatever the input type; else a file input stores its first file, any other input its value; all else kept |
| PlayerStaffForm.DottedChange | src/components/forms/AddPlayerStaffForm.jsx:43-51 | `section.field` changes only that subfield; other top-level fields stay |
| PlayerStaffForm.PlayerStaffFormState.constructor | src/components/forms/AddPlayerStaffForm.jsx:6-39 | the form starts as `InitialForm(initialData)` |
| PlayerStaffForm.PlayerStaffFormState.HandleChange | src/components/forms/AddPlayerStaffForm.jsx:41-63 | performs `ApplyChange` |
| PlayerStaffForm.PlayerStaffFormState.HandleSubmit | src/components/forms/AddPlayerStaffForm.jsx:65-68 | hands over the form unchanged |

## Behaviour worth knowing

These are modelled as the code behaves and stated as lemmas or proved scenarios; they are not
corrected.

- **Adding drops an active search.** `handleAddTraining` sets the displayed list to the full list
  plus the new record (`src/pages/Training.jsx:70`), whatever the search box holds.
  See `Training.TrainingPage.AddTraining` and `Training.AddDropsActiveSearch`.
- **The search reads `period` as a string.** The table renders `period` as an object with
  `startDate` and `endDate` (`src/pages/Training.jsx:203`), but the search calls
  `period.toLowerCase()` (`src/pages/Training.jsx:135`). For such a record, a query that misses the
  first five fields makes the whole `filter` throw a `TypeError`, so the displayed list and page
  stay as they were. A query that hits an earlier field never reaches `period`.
  See `Training.PeriodObjectBreaksSearch` and `Training.TrainingPage.SearchFor`.
- **The page number is not kept in range.** Next is disabled only when the page equals the page
  count (`src/pages/Training.jsx:236`). With no trainings there are 0 pages, and Next leads from
  page 1 to page 2. Nothing clamps `currentPage` after a delete either.
  See `Pagination.NextLeavesRange` and `Training.NextPastLastPage`.
- **The provider and the hook keep separate headers over one token.** Each keeps its own
  `Authorization` header equal to `Bearer <stored token>` as long as only its own operations run.
  Both write the same `localStorage` `token`, though. A hook logout removes the token while a
  signed-in provider's header still carries it, a hook login with a new token leaves the provider's
  header on the old one, and a provider logout does the same to the hook's header.
  See `SharedSession.HookLogoutDesyncsProvider`, `SharedSession.HookLoginDesyncsProvider` and
  `SharedSession.ProviderLogoutDesyncsHook`.
- **An untouched federation form can never pass.** Its default state has no `loginEmail`, and
  the pattern is tested on `String(undefined)` (`Email.UndefinedIsNotEmail`).

## Left out

- Rendering, styling, icons, dark mode, toasts, `alert`, the message auto-dismiss timer,
  console logging, and the open/closed flags of modals and dialogs.
- The HTTP requests themselves. Each handler takes the request's outcome as a parameter. Request
  bodies and URLs are modelled only where the state depends on them: the edit path `/users/<id>`
  and the `Bearer` header of the profile load.
- Navigation is recorded only as the last route requested.
- `Settings.SettingsPage.PasswordSubmit` and `Settings.SettingsPage.PhotoChange`: these requests
  name an undefined `API_URL` and `token` (`src/pages/Settings.jsx:112`, `:146`). As written, the
  code would throw a `ReferenceError` inside the `try` and always take the failure path. The model
  takes the request's outcome as a parameter and covers only the checks and the state updates
  around the request.
- `handleProfileSubmit` (`src/pages/Settings.jsx:72-93`): it changes no state other than
  `isSubmitting`, and its request has the same undefined names.
- `src/components/ui/ProfileMenu.jsx` is not part of this model. Its logout removes `token` and
  `user` from `localStorage` directly and clears neither `Authorization` header, so it is not
  covered by the provider or hook models.
- The federation form's `FileReader` logo preview. A file is an opaque handle.
- The arguments of the hook's requests (e-mail, password, reset token): they only go into request
  bodies.
- Async interleavings, replies arriving after unmount, and request races. Each handler runs to
  completion with its reply given.
- `Js.Lower` lowers ASCII letters only, not the full Unicode case mapping of `toLowerCase`.
- String lengths count `char`s, not UTF-16 code units.
- Numbers are integers.
- Object values are compared structurally, not by reference (for `===` on ids).
- `FederationForm.StartsWithTypeErrorText`: this is the engine's wording for the `TypeError` a
  truthy non-string website raises. The wording varies between engines.
- `PlayerStaffForm.ApplyChange`: spreading a section that holds a string spreads its characters in
  JavaScript; the model spreads nothing for any non-object section. A name with two or more dots
  uses only its first two parts, as `split` does.
- `EditUser.EditUserModal.constructor`: the initial `groups: []` is modelled as an empty record
  `Obj(map[])`, since `Js.Value` has no arrays. Only the group list's rendering, which is not modelled, maps over it.
- `EditUser.EditUserModal.Open` and `FederationForm.InitialForm`: a truthy `initialData` or `userData`
  that is not a record is outside the model. Absent or falsy data is modelled as `None`.
- `Training.RemoveById`: its own contract gives only the length bound. What it keeps, and the
  order it keeps it in, are stated by `RemoveByIdCounts`, `RemoveByIdMembers` and `RemoveByIdAppend`.
