# MoodleBI dashboard: client-side logic in Dafny

MoodleBI is a React dashboard over a learning-management system. Almost all
of it renders data the backend has already aggregated. This project models
the small part with rules of its own, without React, as datatypes, functions
and small classes:

- **Student list** (`Alumnos`, `alumnos.dfy`). This is the page state
  `(currentPage, sortBy, sortDir, debounced search)`. It covers the
  sort-toggle rule, the `skip`/`limit`/`sort_by`/`sort_dir`/`search` request,
  `totalPages = ceil(total/10)`, the "Anterior"/"Siguiente" buttons and when
  they are disabled, the column-header chevron, the error message and the
  screen shown. `AlumnosController` is the page state as an object. Each of
  its methods is specified by the pure function for the same step. A pure
  `Replay` of click sequences proves that the page never drops below 1.
- **Dropout-risk table** (`Predictivos`, `predictivos.dfy`). This covers the
  client-side filter by main risk factor (`'Todos'` keeps every row), the
  red/yellow colour of a risk score (strictly above 0.75 is red), and the
  `'N/D'` shown for a missing city. `PredictivosController` holds the page
  state. Its fetch depends only on the debounced inactivity threshold.
- **Session store** (`Auth`, `auth.dfy`, with string helpers in `Text`,
  `text.dfy`). This covers the token restored from browser storage, the user
  record derived from the token's subject e-mail (name before the first `@`;
  role `admin` if the e-mail contains `admin`, else `viewer`), `login`,
  `logout`, `isAuthenticated = !!token` and the provider's spinner gate.
- **Route guard** (`ProtectedRoute`, `protected_route.dfy`). This decides
  between a spinner, the nested routes, or a redirect to `/login`.
- **User administration** (`UserManagement`, `user_management.dfy`). This
  covers the create/edit form and its field-by-field updates, the payload
  each mode submits (an edit never sends the password), the open/close state
  of the modal, deletion behind a confirmation, and the role badge colours.

Backend responses are inputs of type `Response<T>`: either `Ok(data)`, or
`Failed(detail)` with an optional server `detail`. The debounce timers are
explicit "settle" steps. Browser storage is a `map<string, string>`.
`navigate` is recorded as the last location requested. Decoding a token
payload (`atob`, `JSON.parse`, reading `sub`) is a `Decoder` parameter: a
function from the payload segment to the subject e-mail, `None` when any
step throws.

Three facts about the code that the model keeps as they are:

- `totalPages` is `Math.ceil(total_alumnos / ITEMS_PER_PAGE)` with no floor
  at 1 (src/pages/AlumnosPage.jsx:80), so no results means 0 pages.
- No fetch guards against stale responses. A response is applied whenever
  it arrives.
- Changing the search term does not send the student list back to page 1.
  Only a sort click does.

## Model

| member | source | states |
|---|---|---|
| `Common.DetailOr` | src/pages/AlumnosPage.jsx:63 | the server detail when it is a non-empty string, else the fallback; never empty when the fallback is not |
| `Text.BeforeFirst` | src/contexts/AuthContext.jsx:23 | `split(c)[0]`: a prefix of the input with no `c`, followed in the input by `c` when shorter; the whole input when it has no `c` |
| `Text.AfterFirst` | src/contexts/AuthContext.jsx:18 | present exactly when the input has `c`, and then input = text before + `c` + result |
| `Text.BeforeFirstOfJoin` | src/contexts/AuthContext.jsx:23 | splitting `a + c + b` at its first `c` gives `a` when `a` has no `c` |
| `Text.AfterFirstOfJoin` | src/contexts/AuthContext.jsx:18 | the text after the first `c` of `a + c + b` is `b` when `a` has no `c` |
| `Text.ContainsIffOccurs` | src/contexts/AuthContext.jsx:24 | the left-to-right `includes` scan succeeds exactly when the substring occurs at some index (both directions) |
| `Text.ContainsInfix` | src/contexts/AuthContext.jsx:24 | a string that has `sub` inside it contains `sub` |
| `Alumnos.NextSortDir` | src/pages/AlumnosPage.jsx:74 | the new direction is descending exactly when the clicked column is the sort column and the order is ascending |
| `Alumnos.Sort` | src/pages/AlumnosPage.jsx:73-78 | `handleSort` sorts by the clicked column, resets the page to 1, keeps the search, and picks the direction by the toggle rule |
| `Alumnos.SortTwiceOnActiveColumn` | src/pages/AlumnosPage.jsx:73-78 | two clicks on the active column restore its direction, on page 1 |
| `Alumnos.SortOtherColumnAscends` | src/pages/AlumnosPage.jsx:74 | a click on another column sorts ascending, whatever the current direction |
| `Alumnos.RequestFor` | src/pages/AlumnosPage.jsx:49-58 | `skip = (page-1)*10`, `limit = 10`, the current sort column and direction, and `search` present exactly when the debounced term is non-empty |
| `Alumnos.TotalPages` | src/pages/AlumnosPage.jsx:80 | the least page count that holds `total` rows (`ceil(total/10)`); 0 exactly when there are no rows |
| `Alumnos.PagesAreAdjacent` | src/pages/AlumnosPage.jsx:49-52 | page p+1 starts where page p's window ends |
| `Alumnos.ReachablePageStartsInResults` | src/pages/AlumnosPage.jsx:49-80 | every page from 1 to `totalPages` starts inside the result set (`0 <= skip < total`) |
| `Alumnos.ThirdOfThreePages` | src/pages/AlumnosPage.jsx:80 | 23 rows give 3 pages, and page 3 asks for `skip = 20, limit = 10` |
| `Alumnos.PreviousDisabled` | src/pages/AlumnosPage.jsx:156 | "Anterior" is disabled while loading; from a valid page it is enabled exactly when not loading and a page before the current one exists |
| `Alumnos.NextDisabled` | src/pages/AlumnosPage.jsx:157 | "Siguiente" is disabled while loading; it is enabled exactly when not loading and the next page is within `totalPages` |
| `Alumnos.PressPrevious` | src/pages/AlumnosPage.jsx:156 | a disabled "Anterior" (page 1 or loading) changes nothing; an enabled one maps p to `max(1, p-1)`, which is p-1 from any valid page; only the page changes |
| `Alumnos.PressNext` | src/pages/AlumnosPage.jsx:157 | a disabled "Siguiente" (`page >= totalPages` or loading) changes nothing; an enabled one maps p to `min(totalPages, p+1)`, which is p+1 and at most `totalPages`; only the page changes |
| `Alumnos.Apply` | src/pages/AlumnosPage.jsx:156-157 | no user action takes a page that is at least 1 below 1 |
| `Alumnos.ReplayKeepsPagePositive` | src/pages/AlumnosPage.jsx:156-157 | starting from a page of at least 1, any sequence of clicks, sorts and settled searches keeps the page at least 1 |
| `Alumnos.SettledSearchKeepsPageAndSort` | src/pages/AlumnosPage.jsx:56-67 | a settled search term changes only the search, so the requested window stays the same |
| `Alumnos.Indicator` | src/pages/AlumnosPage.jsx:27 | a header shows a chevron exactly when it is the sort column: up exactly when ascending, down exactly when descending |
| `Alumnos.IndicatorCountIsMembership` | src/pages/AlumnosPage.jsx:27 | among distinct headers, one chevron is shown if the sort column is among them, none otherwise |
| `Alumnos.TableShowsOneIndicator` | src/pages/AlumnosPage.jsx:131-134 | the table's four headers show exactly one chevron when sorted by one of them |
| `Alumnos.ErrorMessage` | src/pages/AlumnosPage.jsx:63 | the stored error is the server detail if present, else the fixed fallback, and is never empty |
| `Alumnos.ScreenFor` | src/pages/AlumnosPage.jsx:83-84 | the loading text exactly while loading with no KPIs; otherwise the error text exactly when there is an error; otherwise the dashboard |
| `Alumnos.FailedFetchShowsError` | src/pages/AlumnosPage.jsx:62-84 | once a failed fetch has finished, the page shows that error |
| `Alumnos.AlumnosController.constructor` | src/pages/AlumnosPage.jsx:33-40 | the page starts on page 1, sorted by `lastname` ascending, with no search, empty data, loading and no error |
| `Alumnos.AlumnosController.SetSearchTerm` | src/pages/AlumnosPage.jsx:121 | typing changes the raw term only; what the fetch depends on is unchanged |
| `Alumnos.AlumnosController.SettleSearch` | src/pages/AlumnosPage.jsx:42 | the debounced term takes the raw term's value |
| `Alumnos.AlumnosController.HandleSort` | src/pages/AlumnosPage.jsx:73-78 | the new query is `Sort` of the old one; the page stays valid |
| `Alumnos.AlumnosController.ClickPrevious` | src/pages/AlumnosPage.jsx:156 | the new query is `PressPrevious` of the old one; the page stays at least 1 |
| `Alumnos.AlumnosController.ClickNext` | src/pages/AlumnosPage.jsx:157 | the new query is `PressNext` of the old one; a page that moved is at most `totalPages` |
| `Alumnos.AlumnosController.StartFetch` | src/pages/AlumnosPage.jsx:45-58 | loading is set and the error cleared; the request sent is `RequestFor` of the current query |
| `Alumnos.AlumnosController.FinishFetch` | src/pages/AlumnosPage.jsx:60-66 | a success replaces the data wholesale; a failure keeps the data and stores `ErrorMessage`; loading ends either way |
| `Predictivos.Keeps` | src/pages/PredictivosPage.jsx:55-57 | `'Todos'` keeps every prediction; any other filter keeps exactly the predictions whose main factor equals it |
| `Predictivos.FilterStudents` | src/pages/PredictivosPage.jsx:55-58 | every kept row comes from the input and passes the filter; no row is added |
| `Predictivos.FilterAllKeepsEverything` | src/pages/PredictivosPage.jsx:55-56 | the `'Todos'` filter returns the list unchanged |
| `Predictivos.FilterCountsOccurrences` | src/pages/PredictivosPage.jsx:55-57 | each prediction passing the filter is kept as often as it occurs; every other one is dropped |
| `Predictivos.FilterIsSubsequence` | src/pages/PredictivosPage.jsx:55-58 | the filtered list is the input with some rows deleted, in the same order |
| `Predictivos.FilterIdempotent` | src/pages/PredictivosPage.jsx:55-58 | filtering twice by the same factor equals filtering once |
| `Predictivos.RiskColour` | src/pages/PredictivosPage.jsx:163 | a score is red exactly when it is strictly above 0.75, otherwise yellow |
| `Predictivos.RiskColourMonotone` | src/pages/PredictivosPage.jsx:163 | a higher score than a red one is red too |
| `Predictivos.CityLabel` | src/pages/PredictivosPage.jsx:161 | a present, non-empty city is shown as is; a missing or empty one as `'N/D'`; the cell is never empty |
| `Predictivos.ScreenFor` | src/pages/PredictivosPage.jsx:45-58 | the loading text exactly while loading; the no-data text exactly when not loading and nothing has loaded; otherwise the table rows are the filtered predictions |
| `Predictivos.PredictivosController.constructor` | src/pages/PredictivosPage.jsx:22-27 | the page starts with no data, loading, filter `'Todos'` and an inactivity threshold of 30 days |
| `Predictivos.PredictivosController.SetFilter` | src/pages/PredictivosPage.jsx:137 | a new filter leaves the fetch dependency and the data unchanged, so nothing is refetched |
| `Predictivos.PredictivosController.SetInactivityDays` | src/pages/PredictivosPage.jsx:70 | typing a threshold leaves the fetch dependency unchanged until it settles |
| `Predictivos.PredictivosController.SettleInactivityDays` | src/pages/PredictivosPage.jsx:27 | the debounced threshold takes the typed value |
| `Predictivos.PredictivosController.StartFetch` | src/pages/PredictivosPage.jsx:29-32 | loading is set; the request carries only `inactivity_days` = the debounced threshold |
| `Predictivos.PredictivosController.FinishFetch` | src/pages/PredictivosPage.jsx:33-38 | a success replaces the data; a failure leaves it unchanged; loading ends either way |
| `Auth.NameOf` | src/contexts/AuthContext.jsx:23 | the name is the part of the e-mail before its first `@`, or the whole e-mail when there is none |
| `Auth.NameOfAddress` | src/contexts/AuthContext.jsx:23 | the name of `local@domain` is `local` |
| `Auth.RoleOf` | src/contexts/AuthContext.jsx:24 | the role is `admin` exactly when `admin` occurs somewhere in the e-mail, otherwise `viewer` |
| `Auth.AdminAnywhere` | src/contexts/AuthContext.jsx:24 | any e-mail with `admin` anywhere in it gets the admin role |
| `Auth.MockUser` | src/contexts/AuthContext.jsx:21-25 | the user record keeps the subject e-mail, takes its name from `NameOf` and its role from `RoleOf` |
| `Auth.MockUserOfAddress` | src/contexts/AuthContext.jsx:21-25 | the user derived from `local@domain` keeps the e-mail and is named `local` |
| `Auth.PayloadSegment` | src/contexts/AuthContext.jsx:18 | `token.split('.')[1]`: present exactly when the token has a dot; then it is the dot-free text that starts right after the first dot and ends at the next dot or at the end of the token |
| `Auth.PayloadOfToken` | src/contexts/AuthContext.jsx:18 | a token `header.payload`, or `header.payload` followed by text that starts with a dot, yields its payload |
| `Auth.SubjectOf` | src/contexts/AuthContext.jsx:18-19 | a token without a dot has no subject (`atob(undefined)` throws); any other has the subject its payload segment decodes to |
| `Auth.SubjectOfToken` | src/contexts/AuthContext.jsx:18-19 | the subject of `header.payload.signature` is what its payload decodes to |
| `Auth.StoredToken` | src/contexts/AuthContext.jsx:10 | `getItem('token')`: present exactly when storage has the `token` key, and then its value |
| `Auth.ClearSession` | src/contexts/AuthContext.jsx:56-57 | logout removes exactly the `user` and `token` keys; every other key keeps its value |
| `Auth.ReloadAfterLogout` | src/contexts/AuthContext.jsx:53-59 | after logout, a reload restores no token |
| `Auth.ReloadAfterLogin` | src/contexts/AuthContext.jsx:46-48 | after login, a reload restores the stored access token |
| `Auth.SpinnerGate` | src/contexts/AuthContext.jsx:70 | `loading && !token`: shown exactly while loading with no token or an empty one |
| `Auth.LoginForm` | src/contexts/AuthContext.jsx:38-40 | login posts exactly `username = email` and then `password` |
| `Auth.Session.IsAuthenticated` | src/contexts/AuthContext.jsx:65 | authenticated exactly when a token is present and non-empty |
| `Auth.Session.ShowsSpinner` | src/contexts/AuthContext.jsx:70 | the full-screen spinner shows exactly while loading with no usable token |
| `Auth.Session.constructor` | src/contexts/AuthContext.jsx:9-11 | the initial token is what storage holds under `token`; there is no user yet, and loading is on; the token in state is the stored one (`Persisted`) |
| `Auth.Session.Logout` | src/contexts/AuthContext.jsx:53-59 | user and token become null, the two storage keys are removed, and the location becomes `/login`; afterwards the token in state is the stored one (none) |
| `Auth.Session.ResolveUser` | src/contexts/AuthContext.jsx:14-35 | with no usable token, only loading changes; a readable token sets the user from its subject; a token that cannot be read logs out; loading ends in every case; the token in state stays the stored one |
| `Auth.Session.Login` | src/contexts/AuthContext.jsx:37-51 | the credentials form is sent; on success the access token is stored under `token` and kept as the token, and the location becomes `/dashboard`; a rejection changes nothing; the token in state stays the stored one |
| `ProtectedRoute.Decide` | src/components/auth/ProtectedRoute.jsx:9-13 | the spinner exactly while loading; the nested routes exactly when loaded and authenticated; otherwise a replacing redirect to `/login` |
| `ProtectedRoute.Guard` | src/components/auth/ProtectedRoute.jsx:7-13 | on the live session: the spinner exactly while it loads, the nested routes exactly when it has settled with a non-empty token, otherwise a replacing redirect to `/login` |
| `ProtectedRoute.OutletNeedsToken` | src/components/auth/ProtectedRoute.jsx:7-13 | the nested routes render only for a settled session with a non-empty token |
| `ProtectedRoute.SpinnerWhileLoading` | src/components/auth/ProtectedRoute.jsx:9-11 | while the session loads, either the provider or the guard shows a spinner; the provider's gate only covers a guard that would show one too |
| `ProtectedRoute.SettledWithoutTokenRedirects` | src/components/auth/ProtectedRoute.jsx:13 | a settled session without a token redirects to `/login`, replacing the entry |
| `UserManagement.InitialForm` | src/pages/UserManagementPage.jsx:7-12 | edit starts from the user's name, e-mail and role; create starts blank with role `viewer`; the password always starts empty |
| `UserManagement.UpdateField` | src/pages/UserManagementPage.jsx:14-17 | the named field takes the value; every other field is unchanged |
| `UserManagement.UpdateFieldLastWins` | src/pages/UserManagementPage.jsx:16 | of two changes to one field, the later one stands |
| `UserManagement.UpdateFieldsCommute` | src/pages/UserManagementPage.jsx:16 | changes to different fields give the same form in either order |
| `UserManagement.SubmitCall` | src/pages/UserManagementPage.jsx:22-27 | an edit sends `{name, email, role}` to the user's id; a create sends the whole form |
| `UserManagement.EditIgnoresPassword` | src/pages/UserManagementPage.jsx:23-24 | in edit mode the password typed has no effect on what is sent |
| `UserManagement.CreateSendsPassword` | src/pages/UserManagementPage.jsx:26 | in create mode the password is sent as typed |
| `UserManagement.SubmitEffects` | src/pages/UserManagementPage.jsx:19-33 | the calls are exactly the save call, then on success the list refresh; on success the modal closes; on failure there is an alert (detail, else `'Error al guardar'`) and the modal stays open |
| `UserManagement.DeleteEffects` | src/pages/UserManagementPage.jsx:105-115 | no call without confirmation; a confirmed delete makes exactly the delete call, followed by the list refetch on success only, and alerts (detail, else `'Error al eliminar'`) exactly on failure |
| `UserManagement.RoleBadge` | src/pages/UserManagementPage.jsx:151 | `admin` is red, `editor` is yellow, and every other role is green |
| `UserManagement.UserModal.constructor` | src/pages/UserManagementPage.jsx:7-12 | a mounted modal starts with `InitialForm` of its user |
| `UserManagement.UserModal.HandleChange` | src/pages/UserManagementPage.jsx:14-17 | the form becomes `UpdateField` of the old form |
| `UserManagement.UserManagementPage.constructor` | src/pages/UserManagementPage.jsx:74-77 | the page starts with no users, loading, and the modal closed |
| `UserManagement.UserManagementPage.StartFetchUsers` | src/pages/UserManagementPage.jsx:79-82 | loading is set and the list is requested |
| `UserManagement.UserManagementPage.FinishFetchUsers` | src/pages/UserManagementPage.jsx:83-88 | a success replaces the list; a failure keeps it; loading ends |
| `UserManagement.UserManagementPage.OpenModal` | src/pages/UserManagementPage.jsx:95-98 | the editing user is the given one (none to create), the modal is open, and a fresh form starts from `InitialForm` |
| `UserManagement.UserManagementPage.CloseModal` | src/pages/UserManagementPage.jsx:100-103 | the modal is closed and there is no editing user |
| `UserManagement.UserManagementPage.Submit` | src/pages/UserManagementPage.jsx:19-33 | the effects are `SubmitEffects` of the open form; a success refreshes and closes; a failure leaves the modal as it was |
| `UserManagement.UserManagementPage.Delete` | src/pages/UserManagementPage.jsx:105-115 | the effects are `DeleteEffects`; loading starts exactly when a confirmed delete succeeds |

## Left out

- Debounce timers (`useDebounce`, `setTimeout`/`clearTimeout`). These are time behaviour. The model has an explicit "settle" step that copies the typed value into the debounced one.
- HTTP traffic and the API client. Responses are `Response<T>` inputs. Calls are values (`Request`, `ApiCall`), not URLs: URL encoding and the printing of ids into paths are not modelled.
- Decoding the token payload (`atob`, `JSON.parse`, reading `sub`). These are library calls, taken as the `Decoder` parameter. Only the `split('.')[1]` step is modelled.
- Ordering of overlapping requests. The code has no request-sequence guard. `FinishFetch` applies whichever response it is given, and interleavings are left to the caller.
- Percentage formatting of the risk score (`toFixed(1)`). This is floating-point display. Only the `> 0.75` comparison is kept, on `real`.
- `window.confirm` and `alert`. These are browser dialogs. The confirmation is a boolean input, and the alert is the text returned in `Effects`.
- Rendering, charts, icons and styling. The "Cargando..." placeholder rows inside the student and user tables are display only. The chart series of both responses are dropped from the data records.
- JavaScript value looseness. `total_alumnos` is a `nat`, `risk_score` a `real`, and `access_token` a string. The inactivity threshold is text throughout, with the initial number 30 taken as `"30"`. In the code a settled edit back to `"30"` changes the effect's dependency (`30 !== "30"`) and fetches the same URL once more; in the model `FetchKey` stays equal and no refetch is due. Missing or ill-typed fields are not modelled.
- `UserManagement.UserManagementPage.OpenModal`: always mounts a new modal. In React, opening while the modal is already open would keep the mounted form; the modal's overlay covers the buttons that open it, so that state is not reachable from the page.
- `Auth.Session.ResolveUser`: React re-runs the effect whenever the token changes, including right after a logout. The model leaves that re-run to the caller as another call.
- The login page's own error message, the unused login in `src/services/auth.js`, the mock-data pages, the layout components, the routing table and the build configuration. These are outside the modelled core.
