# Medical-station console: login, sign-in flow and protected navigation

This project models the client-side behaviour of the medical-station
administration console (`frontend-y-te`) that decides who gets in and where
they go. It covers five components:

- **Login form** (`LoginForm.tsx`): the username and password fields, the
  "remember me" checkbox and the inline error for each field. A field is missing
  when its `trim()`med value is empty. The form hands its values to `onSubmit`
  only when neither field is missing.
- **Sign-in page** (`SignIn.tsx`): the `loading` flag and the snackbar notice
  around the `login` call. After a successful login it schedules a navigation to
  `/dashboard` 500 ms later.
- **Navigation shell** (`DashboardLayout.tsx`): the eleven drawer entries and the
  exact-match highlighting of the entry for the current path. It also has the
  drawer toggle, the account menu, the logout sequence and drawer-entry clicks.
- **Dashboard and population pages** (`dashboard.tsx`, `population.tsx`): the
  guard that sends a visitor with no current user to `/sign-in` and renders
  nothing. The population page also has three cards that navigate to
  sub-pages.

Component state that the source updates in place is a Dafny `class`, and each
handler is a method. Calls to the router, the timer and the auth service are
kept as an ordered log of events. The auth service is not part of this model:
- the current user is an `Option<User>` parameter;
- `login` is a `LoginOutcome` parameter: it resolves, throws an `Error` with a
  message, or throws something else;
- `logout` is an event in the shell's log.

Blankness uses the ECMAScript WhiteSpace and LineTerminator code points, which
are exactly what `String.prototype.trim` removes (module `Text`).

Modules: one per component, the two protected pages sharing one, plus two shared ones:
- `Session`: `Option`, `User`, the route constants.
- `Text`: trimming and blankness.
- `LoginFormModel`: the login form.
- `SignInPage`: the sign-in page.
- `Layout`: the navigation shell.
- `ProtectedPages`: the dashboard and population pages (`dashboard.tsx` and `population.tsx`), kept together because they are compared.

## Model

| member | source | states |
|---|---|---|
| `Text.Trim` | frontend-y-te/app/components/auth/LoginForm.tsx:37-40 | `trim()` only cuts whitespace off both ends. The result is the slice of the input after its leading whitespace, everything cut off is whitespace, and a non-empty result begins and ends with a non-whitespace character |
| `Text.TrimEmptyIffBlank` | frontend-y-te/app/components/auth/LoginForm.tsx:37-40 | `!s.trim()` holds exactly when every character of `s` is whitespace, empty string included (both directions) |
| `LoginFormModel.Validate` | frontend-y-te/app/components/auth/LoginForm.tsx:36-42 | The username error is exactly "Vui lòng nhập tài khoản!" when the username is blank, and absent otherwise. The password error is the same with "Vui lòng nhập mật khẩu!". The checks are independent, so both can be present. The map is empty iff neither field is blank |
| `LoginFormModel.KeyCount` | frontend-y-te/app/components/auth/LoginForm.tsx:44 | `Object.keys(newErrors).length` is at most 2, and 0 exactly for the empty map |
| `LoginFormModel.SubmitDisabled` | frontend-y-te/app/components/auth/LoginForm.tsx:141 | The submit button is disabled exactly when `loading` is `true`. An omitted `loading` leaves it enabled |
| `LoginFormModel.LoginForm.constructor` | frontend-y-te/app/components/auth/LoginForm.tsx:24-30 | Initial state: empty username and password, `remember` ticked, no errors |
| `LoginFormModel.LoginForm.Submit` | frontend-y-te/app/components/auth/LoginForm.tsx:32-58 | The errors always become the validation result: replaced by the new errors on failure, cleared on success. `onSubmit` is called (once) iff a callback is present and neither field is blank. It receives the untrimmed username and password and the current `remember`. Fields never change. Keeps the invariant that a shown error belongs to a blank field |
| `LoginFormModel.LoginForm.EditUsername` | frontend-y-te/app/components/auth/LoginForm.tsx:89-94 | Sets the username and clears only the username error. The password error, password and `remember` are unchanged |
| `LoginFormModel.LoginForm.EditPassword` | frontend-y-te/app/components/auth/LoginForm.tsx:110-115 | Sets the password and clears only the password error. The username error, username and `remember` are unchanged |
| `LoginFormModel.LoginForm.SetRemember` | frontend-y-te/app/components/auth/LoginForm.tsx:126-131 | The checkbox sets `remember` and nothing else |
| `SignInPage.Feedback` | frontend-y-te/app/routes/sign-in/SignIn.tsx:49-66 | After `login` settles the snackbar is open. Its severity is `success` iff `login` resolved. The message is "Đăng nhập thành công" on success, the error's own message for an `Error`, and "Đăng nhập thất bại" for any other thrown value |
| `SignInPage.SubmissionEvents` | frontend-y-te/app/routes/sign-in/SignIn.tsx:41-69 | One submission makes exactly one `login` call, with username and password only, while `loading` is set. A navigation to `/dashboard` after 500 ms is scheduled iff `login` resolved, and only while the success notice is showing |
| `SignInPage.NavigationsPairWithLogins` | frontend-y-te/app/routes/sign-in/SignIn.tsx:41-69 | In any log the page can produce, each scheduled navigation is matched by its own preceding login call |
| `SignInPage.AtMostOneNavigationPerLogin` | frontend-y-te/app/routes/sign-in/SignIn.tsx:41-69 | The page never schedules more navigations than it has made login calls |
| `SignInPage.SubmissionKeepsLogWellFormed` | frontend-y-te/app/routes/sign-in/SignIn.tsx:41-69 | A submission's events keep the page's log well formed. Every login call ran with `loading` set. Every scheduled navigation goes to `/dashboard` after 500 ms, follows its login call, and was scheduled under the success notice |
| `SignInPage.LoginPage.constructor` | frontend-y-te/app/routes/sign-in/SignIn.tsx:30-39 | Initial state: not loading; snackbar closed with empty message and severity `success` |
| `SignInPage.LoginPage.HandleSubmit` | frontend-y-te/app/routes/sign-in/SignIn.tsx:41-70 | `loading` is set before `login` is called and is false afterwards on both paths. The snackbar is `Feedback(outcome)`. The log grows by exactly the submission's events (no navigation on failure) |
| `SignInPage.LoginPage.HandleCloseSnackbar` | frontend-y-te/app/routes/sign-in/SignIn.tsx:72-74 | Closing the snackbar sets `open` to false. Message, severity, `loading` and the log are unchanged |
| `SignInPage.LoginPage.SubmitButtonDisabled` | frontend-y-te/app/routes/sign-in/SignIn.tsx:112 | The form's submit button is disabled exactly while the page is loading |
| `SignInPage.SubmitFromForm` | frontend-y-te/app/routes/sign-in/SignIn.tsx:112 | With the form wired to the page: if a field is blank, `login` is not called and the page is untouched. Otherwise exactly one submission's events are logged, with the form's untrimmed username and password. The field values and `remember` are kept on either path |
| `Layout.ActiveFlags` | frontend-y-te/app/components/layout/DashboardLayout.tsx:111-116 | An entry is highlighted exactly when the current path equals its path, character for character. There is one flag per entry, in menu order |
| `Layout.MenuPathsDistinct` | frontend-y-te/app/components/layout/DashboardLayout.tsx:48-60 | There are eleven drawer entries and their paths are pairwise distinct |
| `Layout.AtMostOneActive` | frontend-y-te/app/components/layout/DashboardLayout.tsx:111-116 | With distinct paths, at most one entry is highlighted for any path |
| `Layout.ActiveIndex` | frontend-y-te/app/components/layout/DashboardLayout.tsx:111-116 | The highlighted entry is one whose path equals the current path. There is none exactly when no entry's path does |
| `Layout.ActiveIndexMatchesFlags` | frontend-y-te/app/components/layout/DashboardLayout.tsx:48-116 | For the drawer's entries, entry `i` is highlighted iff it is the (unique) highlighted index |
| `Layout.SubpathHighlightsNothing` | frontend-y-te/app/components/layout/DashboardLayout.tsx:112 | There is no prefix matching: `/population/households` highlights nothing although `/population` is an entry |
| `Layout.DashboardShell.constructor` | frontend-y-te/app/components/layout/DashboardLayout.tsx:69-70 | Initial state: mobile drawer closed, account menu closed, no effects |
| `Layout.DashboardShell.HandleDrawerToggle` | frontend-y-te/app/components/layout/DashboardLayout.tsx:75-77 | Negates `mobileOpen`. Menu and log are unchanged |
| `Layout.ToggleTwice` | frontend-y-te/app/components/layout/DashboardLayout.tsx:75-77 | Toggling the drawer twice restores `mobileOpen` |
| `Layout.DashboardShell.HandleMenuOpen` | frontend-y-te/app/components/layout/DashboardLayout.tsx:79-81 | Anchors the account menu at the clicked element, which opens it |
| `Layout.DashboardShell.HandleMenuClose` | frontend-y-te/app/components/layout/DashboardLayout.tsx:83-190 | Drops the anchor, so the account menu is closed (it is open exactly while anchored, as `Boolean(anchorEl)` at line 190). Drawer and log are unchanged |
| `Layout.DashboardShell.HandleLogout` | frontend-y-te/app/components/layout/DashboardLayout.tsx:87-91 | Logs the `logout` call and then the navigation to `/sign-in`. The account menu ends closed and the drawer is unchanged. Keeps the invariant that every logout is immediately followed by that navigation |
| `Layout.DashboardShell.HandleItemClick` | frontend-y-te/app/components/layout/DashboardLayout.tsx:117-122 | Navigates to the clicked entry's path. It closes the mobile drawer only on a small screen and leaves it as it was otherwise. Keeps the invariant that the shell only navigates to drawer paths or `/sign-in` |
| `ProtectedPages.Greeting` | frontend-y-te/app/routes/dashboard.tsx:102 | The greeting line contains the user's name right after the fixed "Chào mừng trở lại, " prefix |
| `ProtectedPages.DashboardPage.constructor` | frontend-y-te/app/routes/dashboard.tsx:80 | The user state starts as the current user read at mount, and nothing is navigated yet |
| `ProtectedPages.DashboardPage.RunEffect` | frontend-y-te/app/routes/dashboard.tsx:82-89 | If the effect's fresh read finds no user, it navigates to `/sign-in` and leaves the user state alone. Otherwise it adopts the fresh user and does not navigate |
| `ProtectedPages.DashboardPage.Render` | frontend-y-te/app/routes/dashboard.tsx:91-102 | Without a user it renders nothing. With one it renders the dashboard, greeting that user by name |
| `ProtectedPages.CardTarget` | frontend-y-te/app/routes/population.tsx:56-86 | Each population card navigates to a page under `/population/` |
| `ProtectedPages.CardTargetsDistinct` | frontend-y-te/app/routes/population.tsx:56-86 | The three cards lead to three different paths: `/population/households`, `/population/family-planning` and `/population/statistics` |
| `ProtectedPages.CardTargetsHighlightNoMenuEntry` | frontend-y-te/app/routes/population.tsx:56-86 | None of the card targets highlights a drawer entry, because the shell matches exactly |
| `ProtectedPages.PopulationPage.constructor` | frontend-y-te/app/routes/population.tsx:30 | The user is captured once at mount, in a field that can never be reassigned |
| `ProtectedPages.PopulationPage.RunEffect` | frontend-y-te/app/routes/population.tsx:32-36 | With no captured user it navigates to `/sign-in`. With one it navigates nowhere |
| `ProtectedPages.PopulationPage.OpenCard` | frontend-y-te/app/routes/population.tsx:56-86 | Clicking a card navigates to that card's target and nothing else |
| `ProtectedPages.PopulationPage.Render` | frontend-y-te/app/routes/population.tsx:38-104 | Without a user it renders nothing. With one it renders the three cards in order |
| `ProtectedPages.MountBoth` | frontend-y-te/app/routes/dashboard.tsx:80-93 | Compares the two guards (with population.tsx:30-40). If the session is the same at mount and at the effect, both pages redirect and render nothing exactly when there is no user. If a user appears in between, only the dashboard renders. If the user disappears, the dashboard redirects but still holds the user read at mount |

## Left out

- The auth service (`services/authService`) is not part of this model. Its storage of the session, its remote call and its session format are not modelled. `getCurrentUser` is an `Option<User>` parameter, `login` is a `LoginOutcome` parameter, and `logout` is an event in the shell's log. Whether logout clears stored state cannot be seen in the modelled code.
- Timers: the 500 ms `setTimeout` is a recorded `NavigationScheduled` event; the model records only the scheduling and never fires it. The code never cancels the timer on unmount, so the navigation can fire after the page is gone.
- Asynchrony: each `await` runs to completion before the next handler. Neither submit handler checks `loading`; only the disabled submit button keeps a second submission out while a login is in flight, and nothing stops a logout from racing a login. The model runs one submission at a time (`HandleSubmit` requires `!loading`).
- `SignInPage.LoginPage.HandleSubmit`: a `login` call that never settles (a stalled request, which would leave `loading` set) is not modelled. The handler is always run to completion.
- `Layout.DashboardShell.HandleLogout`: the account-menu close between `logout` and the navigation does not appear in the log. Only its effect, a closed menu, is stated. Nothing reads the menu state in between.
- Rendering and styling: JSX/MUI layout, `DRAWER_WIDTH`, colours, icons, `StatCard`, the fixed statistics and activity list, the button's label text, the snackbar's 6-second auto-hide, the user's name and email in the shell header, the dashboard's account panel (name, `username`, `role`, email), and the `meta()` page titles.
- The breakpoint computation `useMediaQuery(theme.breakpoints.down("md"))` is not modelled. Its result, `isMobile`, is a parameter of the item-click handler.
- The current location is a parameter (`pathname`). The router itself is not modelled; navigation is a string appended to a log.
- The whitespace table is the ECMAScript one as of the Unicode space separators listed in `Text.IsWhitespace`. Later Unicode additions to category Zs would need to be added there.
