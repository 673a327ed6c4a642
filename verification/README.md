# Session and navigation state machine of the AI Fitness app

This project models the root navigator of the AI Fitness mobile app (`src/navigation/AppNavigator.js`).
The root navigator decides which screens the user can reach from two flags persisted in the device's
key/value store: `hasCompletedOnboarding` and `isLoggedIn`.

- At start-up it reads both flags and picks `Main` only when both hold exactly `"true"`. Otherwise, and
  also when the read throws, it picks `Welcome`. Loading ends on every path.
- While loading, only a spinner is shown; afterwards the stack navigator is mounted on the chosen route.
- Three handlers change the session:
  - the welcome handler writes the onboarding flag, then navigates to `UserInfo`;
  - the final onboarding handler writes both flags, marks the user authenticated and resets the history
    to `[Main]`;
  - the logout handler removes the four session keys, marks the user unauthenticated and resets the
    history to `[Welcome]`.
- Every handler issues its store calls before any navigation directive. A failed store call ends the
  handler: no in-memory field changes and no navigation happens.
- The tab bar of the main screen shows a filled icon for the focused tab and the `-outline` icon for the
  others.

Files:

- `session.dfy` (module `Session`): the state as a value `AppState`, made of the store (`map<string,
  string>`), the navigator history (`seq<Route>`, empty while no navigator is mounted), `isAuthenticated`,
  `initialRoute`, `isLoading`, and the log of calls issued to the store and the navigator. Each operation
  is a function from the state before to the state after. The outcome of every store call (success or
  failure) is a parameter.
- `app_navigator.dfy` (module `Navigator`): class `AppNavigator` holds the same state in fields. Its
  methods perform each handler step by step and are specified by the functions of `Session`.
- `session_runs.dfy` (module `SessionRuns`): sequences of handler invocations (`Run`) and the invariants
  they keep.
- `tab_bar.dfy` (module `TabBar`): the tab icon choice.
- `wrappers.dfy` (module `Wrappers`): `Option`.

Points where the model follows the code as written:

- The intended session invariant is "`isLoggedIn` is `"true"` only if `hasCompletedOnboarding` is", even
  when store writes fail. The code writes the two flags with two independent store calls, so when only the
  `isLoggedIn` write succeeds the invariant breaks (see "## Findings"). For the code as written it is
  proved for every run without that partial failure.
- A failed handler only logs its error and returns nothing, so the handlers here return nothing.
- The welcome handler is never passed to any screen. `Welcome` is registered without params, so the
  Welcome screen navigates to `UserInfo` itself. The handler is modelled as written, and the wired
  handlers (final onboarding step and logout) get a lemma of their own (`SessionRuns.WiredRunKeepsSingleRoute`).
- When the start-up read throws, the code sets `initialRoute` to `Welcome` and leaves `isAuthenticated`
  untouched. The model does the same.

## Model

| member | source | states |
|---|---|---|
| `Session.Resolve` | src/navigation/AppNavigator.js:83-103 | `Main` if and only if the read succeeds and both flags are exactly `"true"`, otherwise `Welcome`; `isAuthenticated` agrees with that after a successful read and is untouched after a failed one; loading always ends; store and history unchanged |
| `Session.RenderGate` | src/navigation/AppNavigator.js:159-170 | while loading nothing is mounted; once loading is over the navigator is mounted with `[initialRoute]`; a mounted navigator keeps its history |
| `Session.CompleteWelcome` | src/navigation/AppNavigator.js:108-118 | a successful write stores `hasCompletedOnboarding = "true"` and changes no other key; `UserInfo` is pushed only when the write succeeded and a navigator exists; auth state never changes; the new calls open with the store write and no store call follows a navigation |
| `Session.CompleteOnboarding` | src/navigation/AppNavigator.js:120-138 | a flag reads `"true"` after its write succeeds and keeps its old value after its write fails, other keys unchanged; only when both succeed: authenticated, initial route `Main`, history `[Main]`; otherwise auth state and history unchanged; the new calls open with the two writes, no store call follows a navigation, and navigation happens only after two successes |
| `Session.Logout` | src/navigation/AppNavigator.js:140-157 | on success none of the four session keys remains and every other key is unchanged; not authenticated, initial route `Welcome`, history `[Welcome]`; on failure nothing but the log changes; the new calls open with the bulk removal and no store call follows the reset |
| `Navigator.AppNavigator.constructor` | src/navigation/AppNavigator.js:76-79 | starts loading, not authenticated, initial route `Welcome`, no navigator mounted |
| `Navigator.AppNavigator.CheckAuthStatus` | src/navigation/AppNavigator.js:83-103 | the new state is `Session.Resolve` of the old one; loading ends; `Main` exactly when the read succeeds and both flags are set |
| `Navigator.AppNavigator.Render` | src/navigation/AppNavigator.js:159-170 | the new state is `Session.RenderGate` of the old one; a navigator exists once loading is over |
| `Navigator.AppNavigator.HandleOnboardingComplete` | src/navigation/AppNavigator.js:108-118 | the new state is `Session.CompleteWelcome` of the old one |
| `Navigator.AppNavigator.HandleOnboardingCompleteFinal` | src/navigation/AppNavigator.js:120-138 | the new state is `Session.CompleteOnboarding` of the old one; after two successful writes: both flags set, authenticated, `Main`, history `[Main]` if mounted; otherwise auth state and history unchanged |
| `Navigator.AppNavigator.HandleLogout` | src/navigation/AppNavigator.js:140-157 | the new state is `Session.Logout` of the old one; on failure store, auth state and history unchanged |
| `SessionRuns.BootSettles` | src/navigation/AppNavigator.js:83-106 | start-up ends settled with a one-route history on the resolved route, which is `Main` exactly when the read succeeds and both flags are set |
| `SessionRuns.ApplyKeepsSettled` | src/navigation/AppNavigator.js:108-157 | each handler, succeeding or failing, keeps the settled invariant: the bottom of the history is the initial route, only `UserInfo` above it, and `isAuthenticated` agrees with the initial route being `Main` |
| `SessionRuns.RunKeepsSettled` | src/navigation/AppNavigator.js:108-157 | any sequence of handler invocations keeps the settled invariant |
| `SessionRuns.SettledHistoryMatchesPhase` | src/navigation/AppNavigator.js:127-153 | when settled, an authenticated user has `Main` at the bottom and no `Welcome` in the history, and a user who is not authenticated has `Welcome` at the bottom and no `Main` |
| `SessionRuns.WiredRunKeepsSingleRoute` | src/navigation/AppNavigator.js:120-157 | through runs of the handlers the app wires up (final onboarding step and logout), a settled one-route history stays one route: exactly `[Main]` when authenticated and exactly `[Welcome]` otherwise |
| `SessionRuns.ApplyKeepsLoginImpliesOnboarded` | src/navigation/AppNavigator.js:108-157 | each handler keeps "logged in implies onboarded" in the store unless only the `isLoggedIn` write of the final step succeeds |
| `SessionRuns.RunKeepsLoginImpliesOnboarded` | src/navigation/AppNavigator.js:108-157 | "logged in implies onboarded" holds after any run, failures included, that has no final step whose `isLoggedIn` write alone succeeds |
| `SessionRuns.LoneLoginWriteBreaksInvariant` | src/navigation/AppNavigator.js:122-125 | on a fresh install, a final step whose onboarding-flag write fails while its `isLoggedIn` write succeeds leaves the store logged in but not onboarded |
| `SessionRuns.RunExtendsCalls` | src/navigation/AppNavigator.js:108-157 | handlers only append to the log of store calls and navigation directives |
| `SessionRuns.FailedRunChangesNothing` | src/navigation/AppNavigator.js:108-157 | a run in which every store call fails leaves store, history and in-memory fields as they were and issues no navigation directive |
| `SessionRuns.RunKeepsLoggedOut` | src/navigation/AppNavigator.js:108-157 | a store without `isLoggedIn = "true"` stays so through any run that has no successful `isLoggedIn` write |
| `SessionRuns.RestartAfterLogout` | src/navigation/AppNavigator.js:85-153 | after a successful logout, a restart resolves to `Welcome` and not authenticated, whatever came before, unless a later final step wrote `isLoggedIn` |
| `SessionRuns.RestartAfterOnboarding` | src/navigation/AppNavigator.js:85-134 | after a successful final onboarding step, a restart resolves to `Main`, authenticated, whether or not the history reset happened |
| `Session.CompleteOnboardingInOrder` | src/navigation/AppNavigator.js:120-138 | the final step with `isLoggedIn` written only after the onboarding flag is stored: `isLoggedIn` changes only when the onboarding flag is set, the session invariant is kept for every outcome, two successes end authenticated on `[Main]`, and a failed first write changes nothing but the log |
| `SessionRuns.InOrderRunKeepsLoginImpliesOnboarded` | src/navigation/AppNavigator.js:120-138 | with the in-order final step, the session invariant holds after every run, whichever store calls fail |
| `TabBar.TabIcon` | src/navigation/AppNavigator.js:45-57 | an icon name exactly for the four tabs `Home`, `Workout`, `Progress`, `Profile`; the name is an `-outline` variant exactly when the tab is not focused |
| `TabBar.UnfocusedIsOutlineOfFocused` | src/navigation/AppNavigator.js:49-57 | for every tab the unfocused icon is the focused icon followed by `-outline` |
| `TabBar.TabIconsDistinct` | src/navigation/AppNavigator.js:49-57 | two different tabs never get the same icon name |

## Findings

| source | as written | input that shows it | evidently intended | confidence | as-written member | corrected member |
|---|---|---|---|---|---|---|
| src/navigation/AppNavigator.js:122-125 | the two flags are written by two independent store calls joined with `Promise.all`, so one can succeed while the other fails | fresh install, `hasCompletedOnboarding` write fails, `isLoggedIn` write succeeds: the store says logged in but not onboarded | a user is never stored as logged in without being stored as onboarded | medium, not executed | `SessionRuns.LoneLoginWriteBreaksInvariant` (on `Session.CompleteOnboarding`) | `Session.CompleteOnboardingInOrder`, with `SessionRuns.InOrderRunKeepsLoginImpliesOnboarded` |

The class `Navigator.AppNavigator` keeps the code's behaviour (`Session.CompleteOnboarding`); the in-order
step is the corrected definition the invariant is proved for.

## Left out

- React rendering, `NavigationContainer`, the tab and stack navigator libraries and all screen options
  (headers, gestures, colours, sizes). The navigator is a sequence of route names that supports push and
  reset.
- `navigate('UserInfo')` is modelled as a push. The navigator library's behaviour when the route is already
  in the history (going back to it) is not modelled.
- AsyncStorage internals: each store call either fully succeeds or fails without effect. The bulk removal
  on logout is one all-or-nothing call. The two parallel start-up reads have one outcome, because a failure
  of either one makes the whole read fail.
- Asynchronous scheduling: each handler runs as one step. Two handlers in flight at the same time are not
  modelled.
- `console.error` logging, the spinner's appearance and the nested `HomeStack` navigator of the `Home` tab.
- The screens (`WelcomeScreen`, `HomeScreen`, the onboarding screens, `ProfileScreen`). This includes the
  Welcome screen's own navigation to `UserInfo` and the reading of `userProfile` on the home screen. The
  onboarding screens are not part of this model, so the forward pushes between onboarding steps are not
  modelled either.
- SessionRuns.RunKeepsLoginImpliesOnboarded: does not cover runs where only the `isLoggedIn` write of a
  final step succeeds, because the code's two flag writes are independent and the invariant fails there (see
  "## Findings").
- SessionRuns.SettledHistoryMatchesPhase: allows `UserInfo` above `Main` in an authenticated user's history,
  because its runs include the unwired welcome handler firing in any phase; for the wired handlers
  `SessionRuns.WiredRunKeepsSingleRoute` states the exact history.
