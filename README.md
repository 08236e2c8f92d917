# Fana Media Corporation portal client, modelled in Dafny

The portal is a single-page React client for a media company's video
exchange. Users sign in and then watch, download and upload videos.
Administrators also manage accounts and see every uploaded video.
Every call to the REST backend goes through one HTTP client. That client
attaches the stored bearer token to each request. It also treats an
authentication failure outside a fixed allow-list of messages as an
expired session.

This project models the client's behaviour, component by component:

- `Common`: the values every component shares. These are the outcome of
  a backend call (`Response`: the body or an `HttpError`), the request a
  handler builds, JavaScript's `x || fallback` on a message, and
  `list.filter(x => x.id !== id)`.
- `Sessions`: the `{token, user}` record, stored under the key `fmc_user`
  in the browser's local storage, which is a class with a map field.
- `Api`: the request hook, the response hook and the expiry timer.
- `AuthContext`: the authentication provider. It is a class over its
  `user` state and the storage, specified by functions on an `AuthState`
  value.
- `Guard` and `AppRoutes`: the route guard and the route table.
- `LoginView`, `CreateUser`, `UploadForm`, `UserTableView`,
  `VideoTableView` and `UserDashboardPage`: one class per component, with
  the component's state as fields and its handlers as methods.
- `Media`: video download and playback, which the user dashboard and the
  video table share. It covers the `Content-Disposition` file name, the
  object URLs the browser hands out, and the single-slot video viewer.

Backend calls, the confirmation dialog and the browser's URL registry are
not executed. Each is a parameter of the handler that uses it.
- A handler receives the call's outcome as a `Response` argument and
  returns the `Request` it sends.
- `confirm(...)` becomes a `confirmed: bool` argument.
- Object URLs come from an `ObjectUrls` object. It records every creation
  and revocation in a ghost log, so the contracts can say which URLs were
  released and when.

An async handler is split at its `await`. `BeginSubmit` is the state
change before the request and `Settle` is the one after it.
`HandleSubmit` composes the two.

The file name of a download follows the pattern `/filename="?(.+)"?/`
exactly as JavaScript runs it:
- `.` stops at a line terminator;
- the search is leftmost, retried at each later position;
- `.+` is greedy, so a closing quote stays in the name
  (`Media.QuotedNameKeepsClosingQuote`).

Neither of the two paths a successful login navigates to
(`/admin/dashboard` and `/user/dashboard`) is in the route table, so
both show the not-found page
(`LoginView.LandingIsNotFound`). The model reproduces both behaviours as
written.

## Model

| member | source | states |
|---|---|---|
| Common.TruthyOr | src/pages/Login.jsx:34 | `message || fallback`: a present, non-empty message wins; an absent or empty one gives the fallback; a non-empty fallback never yields "" |
| Common.RemoveId | src/components/VideoTable.jsx:80 | filtering by id keeps no element with that id, keeps every other element exactly as often as before, and keeps their order |
| Common.RemoveAbsentId | src/components/UserTable.jsx:59 | filtering by an id that no element carries leaves the list unchanged |
| Common.RemoveIdIdempotent | src/components/UserTable.jsx:59 | a second filter by the same id removes nothing more |
| Common.IdText | src/components/VideoTable.jsx:79 | an interpolated integer id is an optional minus sign followed by decimal digits, and it reads back as the id itself |
| Common.Digits | src/components/VideoTable.jsx:79 | the decimal digits of a natural number are non-empty and their decimal value is the number |
| Common.IdTextInjective | src/components/VideoTable.jsx:79 | two ids with the same text are the same id |
| Common.IdInPathInjective | src/components/UserTable.jsx:42 | a path built as prefix, id, suffix names exactly one id |
| Sessions.Stored | src/contexts/AuthProvider.jsx:8 | reading `fmc_user` yields a record exactly when the key is present, and it is the stored one |
| Sessions.LocalStorage.constructor | src/contexts/AuthProvider.jsx:8 | storage starts with the given entries |
| Sessions.LocalStorage.SetItem | src/contexts/AuthProvider.jsx:16 | the key maps to the new record and nothing else changes |
| Sessions.LocalStorage.RemoveItem | src/contexts/AuthProvider.jsx:21 | the key is gone and every other key keeps its record |
| Api.StoredToken | src/api/axios.jsx:11-12 | a token is used exactly when a record is stored and its token is non-empty |
| Api.WithCredential | src/api/axios.jsx:10-16 | `Authorization` becomes `Bearer <token>` when a token is stored; no other header is added, dropped or changed; with no token the headers are untouched |
| Api.CredentialCarriesStoredToken | src/api/axios.jsx:12-13 | parsing the bearer credential back out of the sent header gives exactly the stored token |
| Api.RequestConfig.InterceptRequest | src/api/axios.jsx:10-16 | the hook returns the same configuration object, whose headers are now WithCredential of the old headers |
| Api.OnFulfilled | src/api/axios.jsx:20 | a successful response is passed on unchanged |
| Api.SessionExpired | src/api/axios.jsx:24 | the six chained comparisons hold exactly when the status is 401 or 403 and the message is absent or outside the allow-list |
| Api.OnRejected | src/api/axios.jsx:21-33 | the error is always re-rejected unchanged; the alert and a 1000 ms expiry timer happen exactly when the status is 401 or 403 and the message is not one of the six allow-listed ones |
| Api.InvalidPasswordKeepsSession | src/api/axios.jsx:24 | a 403 "Invalid password" does not end the session |
| Api.FireExpiryTimer | src/api/axios.jsx:26-29 | the stored session is removed, every other key is kept, and the browser goes to `/` |
| AuthContext.Initial | src/contexts/AuthProvider.jsx:5 | before mounting, the user is null whatever is stored |
| AuthContext.AfterMount | src/contexts/AuthProvider.jsx:7-12 | a stored record becomes the user; without one the user is kept; storage is only read |
| AuthContext.AfterLogin | src/contexts/AuthProvider.jsx:14-17 | the user is the new record, storage maps `fmc_user` to it, and the two agree |
| AuthContext.AfterLogout | src/contexts/AuthProvider.jsx:19-22 | the user is null, `fmc_user` is removed, other keys are kept, and the two agree |
| AuthContext.MountedProviderInStep | src/contexts/AuthProvider.jsx:7-12 | after the mount effect the user agrees with storage and is present exactly when a record is stored |
| AuthContext.LogoutIdempotent | src/contexts/AuthProvider.jsx:19-22 | logging out twice is the same as logging out once |
| AuthContext.LoginOverwrites | src/contexts/AuthProvider.jsx:14-17 | a second login replaces the first completely |
| AuthContext.LoginThenLogout | src/contexts/AuthProvider.jsx:14-22 | login followed by logout leaves the same state as logout alone |
| AuthContext.AuthProvider.constructor | src/contexts/AuthProvider.jsx:5 | the provider starts in the Initial state over the given storage |
| AuthContext.AuthProvider.Mount | src/contexts/AuthProvider.jsx:7-12 | the new state is AfterMount of the old |
| AuthContext.AuthProvider.Login | src/contexts/AuthProvider.jsx:14-17 | the new state is AfterLogin of the old |
| AuthContext.AuthProvider.Logout | src/contexts/AuthProvider.jsx:19-22 | the new state is AfterLogout of the old |
| Guard.ProtectedRoute | src/routes/ProtectedRoute.jsx:4-11 | children render exactly when a session exists and its role is allowed; an anonymous visitor is sent to `/`; a session whose role is not allowed is sent to `/unauthorized` |
| Guard.AnonymousGoesToRoot | src/routes/ProtectedRoute.jsx:7 | an anonymous visitor goes to `/`, never to `/unauthorized` |
| Guard.DecisionDependsOnlyOnRole | src/routes/ProtectedRoute.jsx:8 | two sessions with the same role get the same decision |
| AppRoutes.MatchRoute | src/App.jsx:14-28 | the result is a row whose path is the requested one, or the catch-all when no row has that path |
| AppRoutes.MatchRouteIsFirst | src/App.jsx:14-28 | of several rows with the requested path, the first one is chosen |
| AppRoutes.Navigate | src/App.jsx:14-28 | the matched row's page is shown exactly when the row is unguarded or the guard permits the session; otherwise the guard's redirect is followed |
| AppRoutes.UnguardedPaths | src/App.jsx:15-26 | `/` shows the login page and `/unauthorized` its page, to anyone |
| AppRoutes.DashboardGuard | src/App.jsx:16-20 | `/dashboard` admits roles admin and user; anonymous visitors go to `/` and other roles to `/unauthorized` |
| AppRoutes.AdminGuard | src/App.jsx:21-25 | `/admin` admits only admin; anonymous visitors go to `/` and other roles to `/unauthorized` |
| AppRoutes.OtherPathsNotFound | src/App.jsx:27 | every path outside the table shows the not-found page |
| AppRoutes.RedirectsLandOnAPage | src/App.jsx:15-27 | following any redirect shows a page without a further redirect |
| LoginView.WithField | src/pages/Login.jsx:16-18 | only the named field takes the new value |
| LoginView.LoginRequest | src/pages/Login.jsx:26 | a POST to `/auth/login` whose body is exactly the username and password |
| LoginView.LandingPath | src/pages/Login.jsx:28-32 | the landing path is `/admin/dashboard` exactly for role admin, else `/user/dashboard` |
| LoginView.LandingIsNotFound | src/pages/Login.jsx:28-32 | both landing paths show the not-found page of the route table |
| LoginView.Login.constructor | src/pages/Login.jsx:12-14 | empty credentials, no error, not loading |
| LoginView.Login.HandleChange | src/pages/Login.jsx:16-18 | the form becomes WithField of the old form |
| LoginView.Login.BeginSubmit | src/pages/Login.jsx:22-26 | loading is set, the error cleared, and the login request built from the form |
| LoginView.Login.Settle | src/pages/Login.jsx:26-37 | success logs the record in and navigates by role; failure keeps the session, does not navigate and shows the server's message or "Login failed"; loading ends false |
| LoginView.Login.HandleSubmit | src/pages/Login.jsx:20-38 | the whole submit: after success storage and user agree on the new record; after failure the error is non-empty |
| CreateUser.WithField | src/components/CreateUserForm.jsx:15-17 | only the named field takes the new value |
| CreateUser.CreateRequest | src/components/CreateUserForm.jsx:25 | a POST to `/users` carrying exactly username, password and role |
| CreateUser.CreateUserForm.constructor | src/components/CreateUserForm.jsx:6-13 | empty username and password, role "user", not loading, no messages |
| CreateUser.CreateUserForm.Banner | src/components/CreateUserForm.jsx:76 | a non-empty error is shown instead of the success message |
| CreateUser.CreateUserForm.HandleChange | src/components/CreateUserForm.jsx:15-17 | the form becomes WithField of the old form |
| CreateUser.CreateUserForm.BeginSubmit | src/components/CreateUserForm.jsx:21-25 | loading is set, the error cleared, and the create request built from the form |
| CreateUser.CreateUserForm.Settle | src/components/CreateUserForm.jsx:25-32 | success sets the message and resets the form; failure shows the server's message or "Failed to create user" and keeps the form; loading ends false |
| CreateUser.CreateUserForm.HandleSubmit | src/components/CreateUserForm.jsx:19-33 | the whole submit: the request is built from the form before the reset; the banner then shows the success message or the error |
| UploadForm.WithChange | src/components/UploadVideoForm.jsx:26-32 | a text input sets only its field; the file input stores the first file, or nothing when none is chosen |
| UploadForm.UploadEntries | src/components/UploadVideoForm.jsx:38-45 | the body has title, description and category first and the video last, with recipient_id fourth exactly when an admin has not chosen "all" (5 entries, else 4) |
| UploadForm.UploadEntriesShape | src/components/UploadVideoForm.jsx:38-45 | the multipart fields are title, description, category, an optional recipient_id, then video; recipient_id is sent exactly when an admin has not chosen "all" |
| UploadForm.UploadVideoForm.constructor | src/components/UploadVideoForm.jsx:6-16 | title and description empty, category "entertainment", recipient empty, no video, no users, not loading |
| UploadForm.UploadVideoForm.HandleChange | src/components/UploadVideoForm.jsx:26-32 | the form becomes WithChange of the old form |
| UploadForm.UploadVideoForm.LoadRecipients | src/components/UploadVideoForm.jsx:18-24 | only an admin fetches `/users`; a failed fetch keeps the list |
| UploadForm.UploadVideoForm.BeginSubmit | src/components/UploadVideoForm.jsx:34-48 | without a video nothing is sent and nothing changes; otherwise the appended body equals the specified entries and loading is set |
| UploadForm.UploadVideoForm.Settle | src/components/UploadVideoForm.jsx:49-63 | success shows the message and resets the form; failure keeps both; loading ends false |
| UploadForm.UploadVideoForm.HandleSubmit | src/components/UploadVideoForm.jsx:34-64 | success shows the message and resets the form; failure keeps both; loading ends false |
| UserTableView.DraftOf | src/components/UserTable.jsx:33-37 | an absent row reads as the empty draft |
| UserTableView.UserPasswordPath | src/components/UserTable.jsx:40-42 | an admin's per-user path never equals the self-service path |
| UserTableView.PasswordChangeRequest | src/components/UserTable.jsx:28-45 | a PUT to the self-service path exactly for the signed-in user, carrying current and new password; for anyone else only the new password, to that user's path; untyped fields are sent as "" |
| UserTableView.RowControls | src/components/UserTable.jsx:85-152 | the new-password input, Save and Cancel show exactly on the row being edited; the current-password input shows only on the editor's own row; Change Password shows for admins and Delete for admins on other users' rows |
| UserTableView.NoDeleteOnOwnRow | src/components/UserTable.jsx:141 | no one is offered to delete their own account |
| UserTableView.DeleteUserRequest | src/components/UserTable.jsx:58 | a DELETE to `/users/<id>` with no body |
| UserTableView.UserPathsNameTheirUser | src/components/UserTable.jsx:42-58 | two users never share a password path or a delete request |
| UserTableView.UserTable.constructor | src/components/UserTable.jsx:6-10 | no users, not loading, no row being edited, no drafts; the signed-in session is a fixed non-null record |
| UserTableView.UserTable.FetchUsers | src/components/UserTable.jsx:16-26 | the list is replaced on success and kept on failure; loading ends false |
| UserTableView.UserTable.StartEditing | src/components/UserTable.jsx:136 | the row becomes the one being edited |
| UserTableView.UserTable.CancelEditing | src/components/UserTable.jsx:125 | no row is being edited; the drafts are kept |
| UserTableView.UserTable.EditCurrentPassword | src/components/UserTable.jsx:92-100 | only the current password of that row's draft changes |
| UserTableView.UserTable.EditNewPassword | src/components/UserTable.jsx:108-115 | only the new password of that row's draft changes |
| UserTableView.UserTable.HandlePasswordChange | src/components/UserTable.jsx:28-53 | success ends editing and empties only that row's draft; failure changes nothing |
| UserTableView.UserTable.HandleDelete | src/components/UserTable.jsx:55-64 | a declined confirmation sends nothing; a confirmed one sends the delete, and only its success filters the id out |
| VideoTableView.DeleteVideoRequest | src/components/VideoTable.jsx:79 | a DELETE to `/videos/<id>` with no body |
| VideoTableView.DeleteVideoRequestNamesVideo | src/components/VideoTable.jsx:79 | two delete requests are equal only for the same video id |
| VideoTableView.VideoTable.constructor | src/components/VideoTable.jsx:6-9 | the table starts empty and loading, with no video open |
| VideoTableView.VideoTable.FetchVideos | src/components/VideoTable.jsx:15-26 | the list is replaced on success and kept on failure; loading ends false |
| VideoTableView.VideoTable.HandleDelete | src/components/VideoTable.jsx:75-85 | a declined confirmation sends nothing; a confirmed one sends the delete, and only its success filters the id out |
| VideoTableView.VideoTable.HandleDownload | src/components/VideoTable.jsx:29-73 | the file is saved under DownloadName and no object URL stays live |
| VideoTableView.VideoTable.HandleView | src/components/VideoTable.jsx:87-108 | the URL being played is revoked first; success plays a fresh URL under the video's title; failure leaves the viewer empty |
| VideoTableView.VideoTable.CloseViewer | src/components/VideoTable.jsx:111-117 | the URL is revoked and the viewer cleared |
| Media.DownloadRequest | src/pages/UserDashboard.jsx:47 | a GET to `/videos/download/<id>` with no body |
| Media.DownloadRequestNamesVideo | src/pages/UserDashboard.jsx:47 | two download requests are equal only for videos with the same id |
| Media.LinePrefix | src/pages/UserDashboard.jsx:55 | the longest prefix free of line terminators, i.e. the span `.+` can cover |
| Media.CaptureAt | src/pages/UserDashboard.jsx:55 | the capture after `filename=` is the rest of the line, or the rest of the line without one opening quote; the quote is dropped exactly when at least one character follows it; the capture is non-empty, and there is none exactly when the line is empty |
| Media.MatchFrom | src/pages/UserDashboard.jsx:55 | a capture is non-empty and on one line; there is none exactly when the pattern matches at no position from the start of the search on |
| Media.LeftmostMatch | src/pages/UserDashboard.jsx:55 | the search returns the capture at the first position where the pattern matches |
| Media.OccurrenceIsIncluded | src/pages/UserDashboard.jsx:54 | an occurrence at any later position makes `includes` true |
| Media.DownloadName | src/pages/UserDashboard.jsx:51-59 | the name is never empty; with no header, no `filename=` in it, or no position where the pattern matches, it is `<title>.mp4` |
| Media.MatchImpliesIncludes | src/pages/UserDashboard.jsx:54-55 | a match implies that the header includes `filename=` |
| Media.IncludesCheckRedundant | src/pages/UserDashboard.jsx:54-58 | the name is the leftmost capture, or `<title>.mp4` when nothing matches; the `includes` test changes nothing |
| Media.DownloadNameIsLeftmostCapture | src/pages/UserDashboard.jsx:51-59 | the file is saved under the capture at the first position where the pattern matches, whatever precedes or follows it |
| Media.NoStraddlingParam | src/pages/UserDashboard.jsx:55 | `filename=` cannot start before another occurrence and overlap it |
| Media.FirstParamAfter | src/pages/UserDashboard.jsx:55 | when the text before `filename=` does not itself contain `filename=`, no earlier position starts one |
| Media.MatchAfterPrefix | src/pages/UserDashboard.jsx:55 | after a prefix that does not contain `filename=` (such as `attachment; foo=1; ` or `form-data; name="file"; `), the match is the capture right after the next `filename=` |
| Media.UnquotedNameRoundTrip | src/pages/UserDashboard.jsx:51-59 | after any such prefix, an unquoted `filename=<name>` at the end of the header or of a line saves the file as `<name>` |
| Media.QuotedNameRoundTrip | src/pages/UserDashboard.jsx:51-59 | after any such prefix, `filename="` followed by the rest of a line saves the file as exactly that rest: only the opening quote is stripped |
| Media.TrailingParametersStayInName | src/components/VideoTable.jsx:35-42 | the header `attachment; filename="v.mp4"; size=1` saves the file as `v.mp4"; size=1` |
| Media.QuotedNameKeepsClosingQuote | src/pages/UserDashboard.jsx:51-59 | after any such prefix, a quoted `filename="<name>"` saves the file as `<name>"` because the greedy capture keeps the closing quote |
| Media.ObjectUrls.constructor | src/pages/UserDashboard.jsx:12 | no URL is live and none was ever created |
| Media.ObjectUrls.Create | src/pages/UserDashboard.jsx:62 | a URL never handed out before becomes live |
| Media.ObjectUrls.Revoke | src/pages/UserDashboard.jsx:70 | the URL is no longer live |
| Media.Download | src/pages/UserDashboard.jsx:45-89 | success saves under DownloadName and creates and revokes one URL, so the live set is unchanged; failure touches nothing |
| Media.VideoViewer.constructor | src/pages/UserDashboard.jsx:12-13 | no video is open and no URL was ever created |
| Media.VideoViewer.View | src/pages/UserDashboard.jsx:91-112 | the URL being played is revoked before the request; success plays a URL never handed out before, under the video's title; failure leaves the viewer empty |
| Media.VideoViewer.Close | src/pages/UserDashboard.jsx:114-120 | the URL is revoked and URL and title are cleared; with nothing open nothing changes |
| Media.AtMostOneLiveUrl | src/pages/UserDashboard.jsx:12-13 | a viewer holds at most one live URL, and none when nothing is open |
| UserDashboardPage.TabFetch | src/pages/UserDashboard.jsx:16-43 | "my" fetches `/videos/my` into the uploaded list, "received" fetches `/videos` into the received list, and the upload tab fetches nothing |
| UserDashboardPage.TabFetchesDistinct | src/pages/UserDashboard.jsx:16-38 | distinct tabs fetch distinct endpoints |
| UserDashboardPage.UserDashboard.constructor | src/pages/UserDashboard.jsx:9-14 | the received tab is active, both lists are empty, nothing loading, no video open |
| UserDashboardPage.UserDashboard.TabEffect | src/pages/UserDashboard.jsx:16-43 | the active tab's list is replaced on success and kept on failure; the other list never changes; loading ends false |
| UserDashboardPage.UserDashboard.SelectTab | src/pages/UserDashboard.jsx:40-43 | choosing the tab already shown changes nothing; another tab becomes active and its effect runs; the upload tab fetches nothing and leaves `loading` as it was |
| UserDashboardPage.UserDashboard.HandleDownload | src/pages/UserDashboard.jsx:45-89 | the file is saved under DownloadName and no object URL stays live |
| UserDashboardPage.UserDashboard.HandleView | src/pages/UserDashboard.jsx:91-112 | as Media.VideoViewer.View, on the dashboard's viewer |
| UserDashboardPage.UserDashboard.CloseViewer | src/pages/UserDashboard.jsx:114-120 | as Media.VideoViewer.Close, on the dashboard's viewer |

## Left out
- Common.IdText: ids are integers, and an id's text is its decimal numeral. This holds for JavaScript's safe integers below 1e21. A larger number prints in exponent form, a fractional one with a decimal point, and a string id as itself. Ids above 2^53 can also compare equal under `!==` while `RemoveId` removes only exact matches.

- Rendering: JSX, class names, spinners, the presentational components (Navbar, VideoCard, Input, Select) and the admin dashboard's layout. They hold no logic beyond what the modelled handlers do.
- `alert` and `console.error` texts other than the session-expiry alert. They have no effect on state.
- The text read by `FileReader` from a failed download's body. It is asynchronous browser I/O and changes no state.
- The one-second `setTimeout`. It is modelled as a delay value (`Api.OnRejected`) plus a callback (`Api.FireExpiryTimer`), with no clock.
- `window.location.href` and `navigate`. They are modelled as the returned path, not as a browser navigation.
- react-router's matching details: case-insensitive paths, trailing slashes and ranking. The table is matched exactly; the landing paths are outside it either way.
- JSON serialisation of the stored record. Storage maps the key straight to the record, so a corrupt stored value (which would make `JSON.parse` throw) is not modelled.
- UserTableView.UserTable: the component re-reads `fmc_user` from storage on every render, and reading `currentUser.user` throws when nothing is stored. The model takes the session once, as a non-null constructor argument, so it covers neither a session that changes while the table is mounted nor the crash with no stored session.
- A stored record without a `user` field. The user table and the guard would throw on `user.user`; the model's record always has one.
- Concurrency: interleaved handlers, a response arriving after the component unmounted, and stale closures. Each handler runs to completion against the state it starts from.
- `toLocaleString` date formatting, which is display only.
- UploadForm.UploadVideoForm: the user dashboard renders the form without `isAdmin`; the model takes `isAdmin` as a boolean, and `false` is that case.
- LoginView.Login.Settle: the page logs in and navigates in the same call; the model returns the path instead of performing the navigation.
- UserTableView.UserTable.HandlePasswordChange: the failure alert shows the server's message; the model does not return it.
- Media.ObjectUrls: URLs are fresh numbers, not `blob:` strings. Only their identity matters to the contracts.
- Media.Download: the temporary `<a>` element and its click are not modelled; the saved name stands for the download.
- Media.DownloadName: the `Blob` contents are not modelled; only the `Content-Disposition` header is read.
