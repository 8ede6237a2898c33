# Employee attendance client: a verified model of its core

This project models the client core of a small React application for work-from-home attendance (employee-app-react). The app lets an employee:

- sign in;
- view and edit their profile (phone, password, photo);
- check in and check out for the day;
- page through an attendance summary.

Underneath the JSX sits a compact set of state machines and decision rules. This project lifts them into Dafny and proves their properties. Browser storage, HTTP, the image host and the query cache are reduced to small values or classes; the network's replies are parameters.

One module per source file, plus four helper modules:

| module | models |
|---|---|
| `Common` | `Option`/`Result`, the `Error` value (name, message, optional status), JavaScript truthiness of strings and the `s \|\| fallback` idiom |
| `Objects` | a JavaScript object as an ordered key/value list; assignment and object spread (`{...a, ...b}`), where a key keeps its first position and the later value wins |
| `Decimal` | `Number.prototype.toString` for integers, with a parser that reads it back |
| `QueryCache` | the part of the query client the pages use: a set of cached keys and `invalidateQueries`, which marks every key extending the filter as stale |
| `Session` | `AuthProvider` and `useAuth` (`src/contexts/AuthContext.tsx`): the transitions as functions on a `Session` value, and a class `AuthProvider` whose methods update its fields and the `LocalStorage` slot `access_token` and are proved equal to those functions |
| `Api` | `src/lib/api.ts`: `ApiError`, the reply translation, header composition, the endpoint/method/body table, the summary query, and `fetchApi` as a method over an abstract reply |
| `Attendance` | `src/pages/AttendancePage.tsx`: dispatch, the button's disabled flag and label, toasts, and the `onSuccess` invalidation of both caches |
| `Summary` | `src/pages/SummaryPage.tsx`: the `page`/`startDate`/`endDate` state as a class, Previous/Next clamping, disabled conditions, query key and parameters |
| `ImageUpload` | `src/hooks/useImageUpload.ts`: the configuration check, the multipart form and the checks on the host's reply |
| `ImageUploader` | `src/components/ImageUploader.tsx`: size-then-type validation and the `previewUrl`/`error` state |
| `Profile` | `src/pages/ProfilePage.tsx`: the edit draft as a class; `handleSave` composes one partial update from phone, password and an uploaded photo |
| `Login` | `src/pages/LoginPage.tsx`: the empty-field check, the Enter shortcut and what a successful login does to the session |
| `PublicRoute` | `src/components/PublicRoute.tsx`: the three-way gate |
| `App` | `src/App.tsx`: the route table with its catch-all, and the mutation 401 rule |

Behaviour of the code that the model keeps:

- Editing a summary date does not reset `page`. Only the Filter button does (`src/pages/SummaryPage.tsx:25-27`, `52`, `61`).
- The password draft is cleared only after a successful update or on cancel, so a failed save keeps it (`src/pages/ProfilePage.tsx:24-30`, `72-76`, `88-92`).
- Check-in and check-out are guarded only by the server's two flags: the button is disabled when neither holds, and the click dispatch follows them (`src/pages/AttendancePage.tsx:47-53`, `112-114`).
- The 401 rule removes the stored token and loads `/login` (`src/App.tsx:25-30`). It does not call `logout`: the provider's in-memory state is rebuilt by the restore effect of that page load (`App.UnauthorizedEndsInLoginPage`).
- `handleSave` does its own upload (`src/pages/ProfilePage.tsx:50-76`). It does not use `useImageUpload`, has no configuration check and ignores the reply's `ok` flag. A `secure_url` is all it looks at (`Profile.ProfilePage.HandleSave`).

Two consequences of the code that the lemmas make explicit:

- `login("")` authenticates the running page, but that session is not restored on the next load, because the restore effect treats an empty token as absent (`Session.EmptyTokenNotRestored`).
- A page left beyond the last one after a date edit is not disabled for Next, and Next moves it back to the last page (`Summary.NextFromBeyondLastMovesBack`).

## Model

| member | source | states |
|---|---|---|
| Session.Initial | src/contexts/AuthContext.tsx:19-21 | on mount there is no token, the user is not authenticated and the session is loading; the invariant holds |
| Session.AfterRestore | src/contexts/AuthContext.tsx:23-31 | a truthy stored token becomes the token and authenticates; a missing or empty one leaves token and flag unchanged; loading ends in every case; storage is only read; the invariant is preserved |
| Session.AfterLogin | src/contexts/AuthContext.tsx:33-37 | the token is held and stored and the user is authenticated, from any state; loading is untouched; slot and token agree |
| Session.AfterLogout | src/contexts/AuthContext.tsx:39-43 | slot cleared, no token, not authenticated, from any state; slot and token agree |
| Session.LogoutIdempotent | src/contexts/AuthContext.tsx:39-43 | logging out twice equals logging out once |
| Session.Boot | src/contexts/AuthContext.tsx:18-31 | after a page load the invariant holds, loading is over, and the user is authenticated exactly when the stored token is truthy, in which case slot and token agree |
| Session.EmptyTokenNotRestored | src/contexts/AuthContext.tsx:25-37 | an empty token given to login authenticates now but is not restored on the next load |
| Session.UseAuth | src/contexts/AuthContext.tsx:52-55 | the context is returned exactly when present; outside a provider the hook fails with the provider message |
| Session.AuthProvider.constructor | src/contexts/AuthContext.tsx:18-21 | the fields start in the initial state over the given storage |
| Session.AuthProvider.Context | src/contexts/AuthContext.tsx:45-47 | the context value carries the provider's current fields |
| Session.AuthProvider.Restore | src/contexts/AuthContext.tsx:23-31 | the new state is the restore transition of the old one; the invariant is kept |
| Session.AuthProvider.Login | src/contexts/AuthContext.tsx:33-37 | the new state, storage included, is the login transition of the old one; the invariant holds |
| Session.AuthProvider.Logout | src/contexts/AuthContext.tsx:39-43 | the new state, storage included, is the logout transition of the old one; the invariant holds |
| Api.ApiError | src/lib/api.ts:17-24 | the error is named `ApiError` and keeps the given status and message |
| Api.Translate | src/lib/api.ts:41-47 | an ok reply yields its body unchanged; any other reply fails with an `ApiError` carrying the reply's status and the server's message, or `An error occurred` when that is missing or empty; an error message is never empty |
| Objects.Spread | src/lib/api.ts:30-34 | after spreading, every key reads the spread object's value if it has one and the base object's otherwise; base keys keep their order and keys stay distinct |
| Api.BuildHeaders | src/lib/api.ts:28-34 | `Content-Type` is the first key, `application/json` unless the caller sets it; `Authorization` is the caller's if given, else `Bearer <token>` exactly when the token is truthy, else absent; every other header is the caller's; keys are distinct |
| Api.FetchApi | src/lib/api.ts:27-48 | the request is base URL plus endpoint, with the options' method (GET by default), the composed headers over the stored token and the options' body; the result is the translation of the reply |
| Api.Send | src/lib/api.ts:51-121 | each call goes to its endpoint with its method and body; `Authorization: Bearer <token>` is present exactly when the stored token is truthy; the JSON content type is always sent; the result is the reply's translation |
| Api.EndpointOf | src/lib/api.ts:51-121 | the profile read and update share `/staff/profile` and no other call goes there; only the summary has a query, built from its parameters |
| Api.OptionsOf | src/lib/api.ts:51-105 | no call adds headers; only login (email and password) and the update (its JSON body) carry a body |
| Api.EndpointTable | src/lib/api.ts:51-105 | login and both attendance commands are POSTs, the update is a PATCH, the profile, today and summary reads are GETs |
| Api.UpdateBody | src/lib/api.ts:70-74 | the update's JSON body holds exactly the fields that are set, each once with its value, and is empty exactly when nothing is set |
| Api.SummaryQuery | src/lib/api.ts:107-113 | four entries `page`, `limit`, `start_date`, `end_date` in that order; the two numerals read back to the page and the limit, the dates are passed as given |
| Api.SummaryQueryReadsBack | src/lib/api.ts:107-113 | read as an object, the summary query has those four keys in order, once each, and looking each one up recovers its parameter exactly |
| Decimal.ParseIntToString | src/lib/api.ts:109-110 | the decimal text of any integer parses back to that integer |
| Decimal.IntToStringInjective | src/lib/api.ts:109-110 | different page numbers give different query text |
| QueryCache.Matching | src/pages/AttendancePage.tsx:26-27 | an invalidation reaches exactly the cached keys that extend the filter |
| QueryCache.KeysReach | src/pages/SummaryPage.tsx:15 | the summary prefix reaches every summary key, whatever its page and dates; the today, summary and profile keys reach none of each other |
| QueryCache.QueryClient.InvalidateQueries | src/pages/AttendancePage.tsx:26-27 | the matching cached keys are added to the stale ones; nothing else changes |
| Attendance.HandleAttendance | src/pages/AttendancePage.tsx:47-53 | check-in is issued exactly when allowed; check-out exactly when allowed and check-in is not; nothing when neither is, including before the first reply |
| Attendance.CallOf | src/pages/AttendancePage.tsx:23-36 | the check-in mutation sends the check-in call and the check-out mutation the check-out call |
| Attendance.IssuedCallIsBarePost | src/pages/AttendancePage.tsx:47-53 | whatever a click issues is a POST with no body and no query |
| Attendance.ButtonDisabled | src/pages/AttendancePage.tsx:112-114 | the button is enabled exactly when a click would issue a command and neither mutation is pending |
| Attendance.ButtonLabel | src/pages/AttendancePage.tsx:136-142 | `Memproses...` exactly while a mutation is pending; otherwise `Check-in` or `Check-out` exactly when a click issues that command, and `Sudah Absen Hari Ini` exactly when it issues none |
| Attendance.ButtonAgreesWithDispatch | src/pages/AttendancePage.tsx:110-142 | an enabled button's label names the command a click issues; while pending the button is disabled and reads `Memproses...`; with nothing pending a disabled button reads `Sudah Absen Hari Ini` |
| Attendance.ErrorToast | src/pages/AttendancePage.tsx:30-44 | the error's message when non-empty, else `Check-in gagal` or `Check-out gagal` by command; never empty |
| Attendance.SuccessToast | src/pages/AttendancePage.tsx:25-40 | the toast names the command that succeeded |
| Attendance.OnCommandSuccess | src/pages/AttendancePage.tsx:25-40 | after either command, today's key and every summary key in the cache are stale, and nothing else newly is |
| Summary.PreviousPage | src/pages/SummaryPage.tsx:130 | `max(1, page - 1)`: never below one; one step back from above one |
| Summary.NextPage | src/pages/SummaryPage.tsx:140 | `min(totalPages, page + 1)`: never above the page count; one step forward below it |
| Summary.PagingWithinRange | src/pages/SummaryPage.tsx:129-141 | from a page in range, both moves stay in range and move by at most one |
| Summary.NextFromBeyondLastMovesBack | src/pages/SummaryPage.tsx:139-141 | a page beyond the last leaves Next enabled, and Next brings it back to the last page |
| Summary.ShowPagination | src/pages/SummaryPage.tsx:123 | the controls show exactly with a `meta` of more than one page, so Next from the first page moves to the second |
| Summary.Attendances | src/pages/SummaryPage.tsx:37 | a missing reply lists no rows; otherwise the reply's rows |
| Summary.SummaryKeyInjective | src/pages/SummaryPage.tsx:15 | two summary keys are equal exactly when page and both dates are, so a date edit alone is a new query |
| Summary.SummaryPage.constructor | src/pages/SummaryPage.tsx:9-11 | page one, with the start of the month and today as the dates |
| Summary.SummaryPage.Key | src/pages/SummaryPage.tsx:15 | the current key is a summary key, so invalidating the summary prefix reaches it |
| Summary.SummaryPage.Params | src/pages/SummaryPage.tsx:16-22 | the request carries the current page and dates and a limit of 10 |
| Summary.SummaryPage.PreviousDisabled | src/pages/SummaryPage.tsx:130-131 | Previous is disabled exactly when clicking it would leave the page where it is |
| Summary.SummaryPage.NextDisabled | src/pages/SummaryPage.tsx:140-141 | Next is disabled exactly when clicking it would leave the page where it is |
| Summary.SummaryPage.SetStartDate | src/pages/SummaryPage.tsx:52 | the start date changes; the page and end date do not |
| Summary.SummaryPage.SetEndDate | src/pages/SummaryPage.tsx:61 | the end date changes; the page and start date do not |
| Summary.SummaryPage.Filter | src/pages/SummaryPage.tsx:25-27 | back to page one, dates unchanged |
| Summary.SummaryPage.Previous | src/pages/SummaryPage.tsx:130 | the page becomes the Previous clamp of the old one and stays at least one |
| Summary.SummaryPage.Next | src/pages/SummaryPage.tsx:139-141 | the page becomes the Next clamp of the old one, at most the page count, at least one |
| ImageUpload.Folder | src/hooks/useImageUpload.ts:18 | the default folder replaces only a missing option; a given one, even empty, is kept |
| ImageUpload.UploadForm | src/hooks/useImageUpload.ts:29-32 | the form holds `file`, `upload_preset`, `folder`, in that order |
| ImageUpload.UploadImage | src/hooks/useImageUpload.ts:21-53 | a request is sent exactly when both settings are truthy; missing configuration fails first; a failed request, a reply that is not ok, an ok reply whose body is not JSON and a reply without `secure_url` each fail with their own error; success returns exactly `secure_url` |
| ImageUpload.UploadErrorToast | src/hooks/useImageUpload.ts:54-57 | the error's message when non-empty, else `Gagal mengupload foto.` |
| ImageUploader.Rejection | src/components/ImageUploader.tsx:24-33 | too large (above 5 MiB) is reported before a wrong type; exactly 5 MiB and any `image/` type are accepted |
| ImageUploader.ImageUploader.constructor | src/components/ImageUploader.tsx:17-18 | no preview and no error at first |
| ImageUploader.ImageUploader.DisplayUrl | src/components/ImageUploader.tsx:45 | the preview when set, otherwise the current photo |
| ImageUploader.ImageUploader.HandleFileChange | src/components/ImageUploader.tsx:20-43 | no file changes nothing and selects nothing; a rejected file only sets the error; an accepted file clears the error, sets the preview and is handed on once |
| Profile.PhoneChanged | src/pages/ProfilePage.tsx:40 | a non-empty phone is a change unless the loaded profile has that very phone |
| Profile.UpdateErrorToast | src/pages/ProfilePage.tsx:31-33 | the error's message when non-empty, else `Gagal memperbarui profil` |
| Profile.ProfilePage.constructor | src/pages/ProfilePage.tsx:10-13 | not editing, empty draft, no file |
| Profile.ProfilePage.StartEditing | src/pages/ProfilePage.tsx:110-113 | edit mode with the profile's phone, or empty when there is none |
| Profile.ProfilePage.SetPhone | src/pages/ProfilePage.tsx:250-254 | in edit mode the phone field changes and nothing else |
| Profile.ProfilePage.SetPassword | src/pages/ProfilePage.tsx:263-272 | in edit mode the password field changes and nothing else |
| Profile.ProfilePage.SelectFile | src/pages/ProfilePage.tsx:165-173 | in edit mode the selected file changes and nothing else |
| Profile.ProfilePage.HandleSave | src/pages/ProfilePage.tsx:36-86 | an upload is sent exactly when a file is selected; without a `secure_url` the save aborts with a toast; with nothing to change no update is sent; otherwise one update carries the changed non-empty phone, the non-empty password and the uploaded URL, and is never empty; the draft is never changed |
| Profile.ProfilePage.OnUpdateSuccess | src/pages/ProfilePage.tsx:24-30 | edit mode ends, password and file are cleared, phone is kept, and the profile key is marked stale |
| Profile.ProfilePage.HandleCancel | src/pages/ProfilePage.tsx:88-92 | edit mode ends, password and file are cleared, phone is kept |
| Login.SubmitDecision | src/pages/LoginPage.tsx:27-33 | an empty email or password is rejected with `Please fill in all fields`; otherwise exactly one login call with both fields is issued |
| Login.LoginErrorToast | src/pages/LoginPage.tsx:22-24 | the error's message when non-empty, else `Login failed` |
| Login.LoginPage.constructor | src/pages/LoginPage.tsx:11-12 | both fields start empty |
| Login.LoginPage.SetEmail | src/pages/LoginPage.tsx:80 | the email changes, the password does not |
| Login.LoginPage.SetPassword | src/pages/LoginPage.tsx:93 | the password changes, the email does not |
| Login.LoginPage.HandleSubmit | src/pages/LoginPage.tsx:27-33 | the outcome is the submit decision on the current fields |
| Login.LoginPage.HandleKeyDown | src/pages/LoginPage.tsx:94 | Enter runs the submit decision; any other key does nothing |
| Login.OnLoginSuccess | src/pages/LoginPage.tsx:18-21 | the session becomes the login transition with the returned token, stored and authenticated, and the page goes to `/` |
| PublicRoute.PublicRouteGate | src/components/PublicRoute.tsx:7-18 | a spinner exactly while loading; a replacing redirect to `/` exactly when loaded and authenticated; the page exactly when loaded and signed out |
| App.Resolve | src/App.tsx:41-61 | `/login` renders the login page behind the public gate; `/` renders the profile page, `/attendance` and `/summary` their pages, all protected; every other path redirects to `/` with replace |
| App.CatchAllLandsOnProfile | src/App.tsx:57-61 | a catch-all redirect lands in one step on the profile page |
| App.DefaultOnError | src/App.tsx:17-31 | the token is cleared and `/login` loaded exactly for a mutation error with status 401; queries carry no such rule |
| App.MutationOnError | src/App.tsx:25-30 | on status 401 the slot is cleared and the location becomes `/login`; any other error, including one without a status, changes neither |
| App.UnauthorizedEndsInLoginPage | src/App.tsx:25-30 | the page load that follows the 401 rule is signed out, and `/login` then shows its page instead of redirecting |
| App.LoginRouteAfterBoot | src/components/PublicRoute.tsx:10-18 | on any page load, `/login` shows its page exactly when no truthy token was stored, and redirects home otherwise |

## Left out

- Network failures and unparsable JSON in `fetchApi` are not modelled: the reply is always a parsed `(ok, status, body)`. `ApiError` is modelled as an `Error` value.
- Percent-encoding by `URLSearchParams`: the query is an ordered key/value list.
- `Number.prototype.toString` is modelled for all integers. No JavaScript number precision limits apply.
- Stringifying a `File` handle and the `FormData` wire format: a file is a value `(name, size, type)`.
- Query client internals: fetching, `retry: 1`, `staleTime`, `refetchOnWindowFocus`, the 30 s poll and refetch ordering. Only "marked stale" is modelled. The poll interval is only the constant `Attendance.RefetchIntervalMs`.
- Whether a page-level `onError` replaces the 401 default is library behaviour. The 401 rule is modelled as its own transition, `App.MutationOnError`.
- Concurrency: double-click suppression via `isPending` and races between polling and mutations. The pending flags are inputs to `Attendance.ButtonDisabled` and `Attendance.ButtonLabel`. The login and profile inputs and buttons disabled while pending are not modelled.
- No concurrency properties are proved: that concurrent 401s redirect at most once, and that server-side pages are disjoint.
- `dayjs` formatting, the clock and time zones: the initial summary dates are constructor parameters.
- `URL.createObjectURL`: the object URL is a parameter of `HandleFileChange`, and revocation is not modelled. The preview is kept after a cancel, as the source does.
- Toasts, `console.error`, `window.location` and `react-router` navigation are modelled as returned values (toast text, target path). Case-insensitive and trailing-slash path matching is not modelled: paths are compared exactly.
- All JSX and markup, including the profile page's fallback avatar URL and the read-only name/email/position fields.
- `src/components/ui/Button.tsx` and `src/components/ui/LoadingSpinner.tsx` are presentational and not part of this model. Neither is `src/components/ProtectedRoute` nor `src/components/Layout`: the protected routes are only named in `App.Resolve`.
- Summary.SummaryPage.Next: requires the controls to be shown (more than one page), because the button exists only then.
- Api.FetchApi: requires distinct caller header names, which a JavaScript object literal always has.
