/**
 * The session/navigation state machine of the app's root navigator, as values.
 *
 * The persisted key/value store, the root stack navigator's history, the three
 * in-memory fields (`isAuthenticated`, `isLoading`, `initialRoute`) and the log of
 * calls issued to the store and to the navigator form one `AppState`. Each
 * operation of the root navigator is a function from the state before it to the
 * state after it; the outcome of every store call (success or failure) is a
 * parameter. The class `Navigator.AppNavigator` performs the same operations
 * step by step and is specified by these functions.
 */
module Session {

  import opened Wrappers

  /** The screens registered on the root stack navigator. */
  datatype Route = Welcome | UserInfo | WorkoutPreference | Equipment | GymEquipment | FitnessGoal | Main

  /** The persisted string-to-string store. */
  type Store = map<string, string>

  const OnboardingKey: string := "hasCompletedOnboarding"
  const LoggedInKey: string := "isLoggedIn"
  const UserDataKey: string := "userData"
  const UserProfileKey: string := "userProfile"

  /** The only stored value that counts as a set flag. */
  const TrueFlag: string := "true"

  /** The keys the logout handler removes, in the order it passes them. */
  const LogoutKeys: seq<string> := [LoggedInKey, UserDataKey, OnboardingKey, UserProfileKey]

  /** A read of one key: `None` when the key is absent. */
  function GetItem(store: Store, key: string): Option<string>
  {
    if key in store then Some(store[key]) else None
  }

  /** Both session flags hold exactly the string "true". */
  predicate BothFlagsSet(store: Store)
  {
    && OnboardingKey in store && store[OnboardingKey] == TrueFlag
    && LoggedInKey in store && store[LoggedInKey] == TrueFlag
  }

  /** The session invariant of the store: logged in implies onboarded. */
  ghost predicate LoginImpliesOnboarded(store: Store)
  {
    GetItem(store, LoggedInKey) == Some(TrueFlag) ==> GetItem(store, OnboardingKey) == Some(TrueFlag)
  }

  /** A call issued to the store or to the navigator, in the order issued. */
  datatype Call =
    | SetItem(key: string, value: string, succeeded: bool)
    | MultiRemove(keys: seq<string>, succeeded: bool)
    | Navigate(route: Route)
    | Reset(route: Route)

  predicate IsNavigation(c: Call)
  {
    c.Navigate? || c.Reset?
  }

  /** No store call comes after a navigation directive. */
  predicate StoreCallsFirst(cs: seq<Call>)
  {
    forall i, j | 0 <= i < j < |cs| :: IsNavigation(cs[i]) ==> IsNavigation(cs[j])
  }

  predicate IssuesNavigation(cs: seq<Call>)
  {
    exists i | 0 <= i < |cs| :: IsNavigation(cs[i])
  }

  datatype AppState = AppState(
    store: Store,
    stack: seq<Route>,        // history of the root stack navigator; [] while it is not mounted
    isAuthenticated: bool,
    initialRoute: Route,
    isLoading: bool,
    calls: seq<Call>)

  /** The navigator reference is set only once the navigation container is mounted. */
  predicate Mounted(s: AppState)
  {
    s.stack != []
  }

  /** The state when the root navigator is first created: still loading, no navigator. */
  function Launch(persisted: Store): AppState
  {
    AppState(persisted, [], false, Welcome, true, [])
  }

  /** The route decision of the startup check. */
  function InitialRouteFor(onboarding: Option<string>, loggedIn: Option<string>): Route
  {
    if onboarding == Some(TrueFlag) && loggedIn == Some(TrueFlag) then Main else Welcome
  }

  /**
   * The startup check: read both flags (`readOk` is false when the read throws);
   * `Main` only when both are exactly "true", `Welcome` otherwise; loading ends on
   * every path. A failed read leaves `isAuthenticated` as it was.
   */
  function Resolve(s: AppState, readOk: bool): (t: AppState)
    ensures !t.isLoading
    ensures t.store == s.store && t.stack == s.stack && t.calls == s.calls
    ensures t.initialRoute == Main || t.initialRoute == Welcome
    ensures t.initialRoute == Main <==> readOk && BothFlagsSet(s.store)
    ensures readOk ==> (t.isAuthenticated <==> BothFlagsSet(s.store))
    ensures !readOk ==> t.isAuthenticated == s.isAuthenticated
  {
    if readOk then
      var route := InitialRouteFor(GetItem(s.store, OnboardingKey), GetItem(s.store, LoggedInKey));
      s.(initialRoute := route, isAuthenticated := route == Main, isLoading := false)
    else
      s.(initialRoute := Welcome, isLoading := false)
  }

  /**
   * The loading gate: while loading only an indicator is shown and no navigator
   * exists; once loading is over the navigator is mounted on `initialRoute`.
   * A mounted navigator keeps its history on later renders.
   */
  function RenderGate(s: AppState): (t: AppState)
    ensures s.isLoading ==> t == s
    ensures Mounted(s) ==> t == s
    ensures !s.isLoading ==> Mounted(t)
    ensures !s.isLoading && !Mounted(s) ==> t.stack == [s.initialRoute] && t == s.(stack := t.stack)
  {
    if s.isLoading || Mounted(s) then s else s.(stack := [s.initialRoute])
  }

  /** Process start: the startup check followed by the first render after it. */
  function Boot(persisted: Store, readOk: bool): AppState
  {
    RenderGate(Resolve(Launch(persisted), readOk))
  }

  /**
   * The welcome-screen handler: write the onboarding flag, then push `UserInfo`
   * if a navigator exists. A failed write skips the navigation.
   */
  function CompleteWelcome(s: AppState, writeOk: bool): (t: AppState)
    ensures t.isAuthenticated == s.isAuthenticated && t.initialRoute == s.initialRoute
    ensures t.isLoading == s.isLoading
    ensures GetItem(t.store, OnboardingKey) == if writeOk then Some(TrueFlag) else GetItem(s.store, OnboardingKey)
    ensures forall k | k != OnboardingKey :: GetItem(t.store, k) == GetItem(s.store, k)
    ensures writeOk && Mounted(s) ==> t.stack == s.stack + [UserInfo]
    ensures !(writeOk && Mounted(s)) ==> t.stack == s.stack
    ensures s.calls <= t.calls && StoreCallsFirst(t.calls[|s.calls|..])
    ensures |t.calls| > |s.calls| && t.calls[|s.calls|] == SetItem(OnboardingKey, TrueFlag, writeOk)
    ensures IssuesNavigation(t.calls[|s.calls|..]) <==> writeOk && Mounted(s)
  {
    var written := if writeOk then s.store[OnboardingKey := TrueFlag] else s.store;
    var calls := s.calls + [SetItem(OnboardingKey, TrueFlag, writeOk)];
    if writeOk && Mounted(s) then
      var t := s.(store := written, stack := s.stack + [UserInfo], calls := calls + [Navigate(UserInfo)]);
      assert t.calls[|s.calls|..] == [SetItem(OnboardingKey, TrueFlag, writeOk), Navigate(UserInfo)];
      assert IsNavigation(t.calls[|s.calls|..][1]);
      t
    else
      var t := s.(store := written, calls := calls);
      assert t.calls[|s.calls|..] == [SetItem(OnboardingKey, TrueFlag, writeOk)];
      t
  }

  /**
   * The final onboarding handler: both flags are written (two independent store
   * calls); only when both succeed is the user marked authenticated, `Main`
   * made the initial route and the history reset to `[Main]` (if a navigator
   * exists). A write that succeeds alongside a failed one stays written.
   */
  function CompleteOnboarding(s: AppState, onboardingWriteOk: bool, loggedInWriteOk: bool): (t: AppState)
    ensures GetItem(t.store, OnboardingKey) == if onboardingWriteOk then Some(TrueFlag) else GetItem(s.store, OnboardingKey)
    ensures GetItem(t.store, LoggedInKey) == if loggedInWriteOk then Some(TrueFlag) else GetItem(s.store, LoggedInKey)
    ensures forall k | k != OnboardingKey && k != LoggedInKey :: GetItem(t.store, k) == GetItem(s.store, k)
    ensures t.isLoading == s.isLoading
    ensures onboardingWriteOk && loggedInWriteOk ==>
      BothFlagsSet(t.store) && t.isAuthenticated && t.initialRoute == Main && (Mounted(s) ==> t.stack == [Main])
    ensures !(onboardingWriteOk && loggedInWriteOk) ==>
      t.isAuthenticated == s.isAuthenticated && t.initialRoute == s.initialRoute && t.stack == s.stack
    ensures !Mounted(s) ==> t.stack == s.stack
    ensures s.calls <= t.calls && StoreCallsFirst(t.calls[|s.calls|..])
    ensures |t.calls| >= |s.calls| + 2
    ensures t.calls[|s.calls|..|s.calls| + 2] ==
      [SetItem(OnboardingKey, TrueFlag, onboardingWriteOk), SetItem(LoggedInKey, TrueFlag, loggedInWriteOk)]
    ensures IssuesNavigation(t.calls[|s.calls|..]) <==> onboardingWriteOk && loggedInWriteOk && Mounted(s)
  {
    var afterFirst := if onboardingWriteOk then s.store[OnboardingKey := TrueFlag] else s.store;
    var written := if loggedInWriteOk then afterFirst[LoggedInKey := TrueFlag] else afterFirst;
    var writes := [SetItem(OnboardingKey, TrueFlag, onboardingWriteOk), SetItem(LoggedInKey, TrueFlag, loggedInWriteOk)];
    if !(onboardingWriteOk && loggedInWriteOk) then
      var t := s.(store := written, calls := s.calls + writes);
      assert t.calls[|s.calls|..] == writes;
      t
    else if Mounted(s) then
      var t := s.(store := written, isAuthenticated := true, initialRoute := Main, stack := [Main],
                  calls := s.calls + writes + [Reset(Main)]);
      assert t.calls[|s.calls|..] == writes + [Reset(Main)];
      assert IsNavigation(t.calls[|s.calls|..][2]);
      t
    else
      var t := s.(store := written, isAuthenticated := true, initialRoute := Main, calls := s.calls + writes);
      assert t.calls[|s.calls|..] == writes;
      t
  }

  /**
   * The logout handler: one bulk removal of the four session keys; only when it
   * succeeds is the user marked unauthenticated, `Welcome` made the initial
   * route and the history reset to `[Welcome]` (if a navigator exists).
   */
  function Logout(s: AppState, removeOk: bool): (t: AppState)
    ensures removeOk ==> forall k | k in LogoutKeys :: k !in t.store
    ensures forall k | k !in LogoutKeys :: GetItem(t.store, k) == GetItem(s.store, k)
    ensures !removeOk ==> t.store == s.store
    ensures t.isLoading == s.isLoading
    ensures removeOk ==>
      !BothFlagsSet(t.store) && !t.isAuthenticated && t.initialRoute == Welcome && (Mounted(s) ==> t.stack == [Welcome])
    ensures !removeOk ==>
      t.isAuthenticated == s.isAuthenticated && t.initialRoute == s.initialRoute && t.stack == s.stack
    ensures !Mounted(s) ==> t.stack == s.stack
    ensures s.calls <= t.calls && StoreCallsFirst(t.calls[|s.calls|..])
    ensures |t.calls| > |s.calls| && t.calls[|s.calls|] == MultiRemove(LogoutKeys, removeOk)
    ensures IssuesNavigation(t.calls[|s.calls|..]) <==> removeOk && Mounted(s)
  {
    var removal := MultiRemove(LogoutKeys, removeOk);
    if !removeOk then
      var t := s.(calls := s.calls + [removal]);
      assert t.calls[|s.calls|..] == [removal];
      t
    else
      var remaining := s.store - {LoggedInKey, UserDataKey, OnboardingKey, UserProfileKey};
      if Mounted(s) then
        var t := s.(store := remaining, isAuthenticated := false, initialRoute := Welcome, stack := [Welcome],
                    calls := s.calls + [removal, Reset(Welcome)]);
        assert t.calls[|s.calls|..] == [removal, Reset(Welcome)];
        assert IsNavigation(t.calls[|s.calls|..][1]);
        t
      else
        var t := s.(store := remaining, isAuthenticated := false, initialRoute := Welcome,
                    calls := s.calls + [removal]);
        assert t.calls[|s.calls|..] == [removal];
        t
  }

  /**
   * The final onboarding step with its two writes in order: `isLoggedIn` is
   * written only after the onboarding flag is stored. Once both succeed it ends
   * exactly as `CompleteOnboarding`; unlike it, `isLoggedIn` never changes
   * unless the onboarding flag is set, so the session invariant is kept
   * whatever the outcome of each write.
   */
  function CompleteOnboardingInOrder(s: AppState, onboardingWriteOk: bool, loggedInWriteOk: bool): (t: AppState)
    ensures GetItem(t.store, LoggedInKey) != GetItem(s.store, LoggedInKey) ==>
      GetItem(t.store, OnboardingKey) == Some(TrueFlag)
    ensures LoginImpliesOnboarded(s.store) ==> LoginImpliesOnboarded(t.store)
    ensures onboardingWriteOk && loggedInWriteOk ==>
      BothFlagsSet(t.store) && t.isAuthenticated && t.initialRoute == Main && (Mounted(s) ==> t.stack == [Main])
    ensures s.calls <= t.calls && StoreCallsFirst(t.calls[|s.calls|..])
    ensures !onboardingWriteOk ==> t == s.(calls := t.calls) && !IssuesNavigation(t.calls[|s.calls|..])
  {
    if onboardingWriteOk then
      CompleteOnboarding(s, true, loggedInWriteOk)
    else
      var t := s.(calls := s.calls + [SetItem(OnboardingKey, TrueFlag, false)]);
      assert t.calls[|s.calls|..] == [SetItem(OnboardingKey, TrueFlag, false)];
      t
  }

}
