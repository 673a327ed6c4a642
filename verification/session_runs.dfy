/**
 * Sequences of user intents after start-up, and the invariants they keep.
 *
 * After the startup check the root navigator only changes through its three
 * handlers. An `Intent` is one handler invocation together with the outcome of
 * each of its store calls; `Run` applies a sequence of them in order.
 */
module SessionRuns {

  import opened Wrappers
  import opened Session

  datatype Intent =
    | WelcomeDone(writeOk: bool)
    | OnboardingDone(onboardingWriteOk: bool, loggedInWriteOk: bool)
    | LogoutRequested(removeOk: bool)

  function Apply(s: AppState, i: Intent): AppState
  {
    match i
    case WelcomeDone(ok) => CompleteWelcome(s, ok)
    case OnboardingDone(ok1, ok2) => CompleteOnboarding(s, ok1, ok2)
    case LogoutRequested(ok) => Logout(s, ok)
  }

  function Run(s: AppState, xs: seq<Intent>): AppState
    decreases |xs|
  {
    if xs == [] then s else Run(Apply(s, xs[0]), xs[1..])
  }

  /** Every store call of the intent fails. */
  predicate AllStoreCallsFail(i: Intent)
  {
    match i
    case WelcomeDone(ok) => !ok
    case OnboardingDone(ok1, ok2) => !ok1 && !ok2
    case LogoutRequested(ok) => !ok
  }

  /** The intent does not succeed in writing `isLoggedIn` without also writing the onboarding flag. */
  predicate NoLoneLoginWrite(i: Intent)
  {
    !(i.OnboardingDone? && i.loggedInWriteOk && !i.onboardingWriteOk)
  }

  /** The intent writes no "true" under `isLoggedIn`. */
  predicate NoLoginWrite(i: Intent)
  {
    !(i.OnboardingDone? && i.loggedInWriteOk)
  }

  /**
   * The state after start-up: loading is over, the navigator is mounted with the
   * initial route at the bottom of its history, only `UserInfo` was pushed above
   * it, and the in-memory authentication flag agrees with the initial route.
   */
  ghost predicate Settled(s: AppState)
  {
    && !s.isLoading
    && Mounted(s)
    && (s.initialRoute == Main || s.initialRoute == Welcome)
    && s.stack[0] == s.initialRoute
    && (forall i | 1 <= i < |s.stack| :: s.stack[i] == UserInfo)
    && s.isAuthenticated == (s.initialRoute == Main)
  }

  /** Start-up ends settled, with exactly one route in the history. */
  lemma BootSettles(persisted: Store, readOk: bool)
    ensures Settled(Boot(persisted, readOk))
    ensures Boot(persisted, readOk).stack == [Boot(persisted, readOk).initialRoute]
    ensures Boot(persisted, readOk).initialRoute == Main <==> readOk && BothFlagsSet(persisted)
  {
  }

  lemma ApplyKeepsSettled(s: AppState, i: Intent)
    requires Settled(s)
    ensures Settled(Apply(s, i))
  {
  }

  /** Every run of intents from a settled state ends settled. */
  lemma {:induction false} RunKeepsSettled(s: AppState, xs: seq<Intent>)
    requires Settled(s)
    ensures Settled(Run(s, xs))
    decreases |xs|
  {
    if xs != [] {
      ApplyKeepsSettled(s, xs[0]);
      RunKeepsSettled(Apply(s, xs[0]), xs[1..]);
    }
  }

  /**
   * In a settled state the history matches the phase: an authenticated user has
   * `Main` at the bottom and never `Welcome` to go back to; a user who is not
   * authenticated has no `Main` in the history.
   */
  lemma SettledHistoryMatchesPhase(s: AppState)
    requires Settled(s)
    ensures s.isAuthenticated ==> s.stack[0] == Main && Welcome !in s.stack
    ensures !s.isAuthenticated ==> s.stack[0] == Welcome && Main !in s.stack
  {
  }

  /** The handler is one that the app passes to a screen (the welcome handler is not). */
  predicate Wired(i: Intent)
  {
    !i.WelcomeDone?
  }

  /**
   * Through the handlers the app actually wires up, a settled history stays a
   * single route, the initial route: an authenticated user's history is exactly
   * `[Main]`, with no onboarding route to go back to, and a user who is not
   * authenticated has exactly `[Welcome]`.
   */
  lemma {:induction false} WiredRunKeepsSingleRoute(s: AppState, xs: seq<Intent>)
    requires Settled(s) && s.stack == [s.initialRoute]
    requires forall k | 0 <= k < |xs| :: Wired(xs[k])
    ensures Settled(Run(s, xs)) && Run(s, xs).stack == [Run(s, xs).initialRoute]
    ensures Run(s, xs).isAuthenticated ==> Run(s, xs).stack == [Main]
    ensures !Run(s, xs).isAuthenticated ==> Run(s, xs).stack == [Welcome]
    decreases |xs|
  {
    if xs != [] {
      ApplyKeepsSettled(s, xs[0]);
      WiredRunKeepsSingleRoute(Apply(s, xs[0]), xs[1..]);
    }
  }

  lemma ApplyKeepsLoginImpliesOnboarded(s: AppState, i: Intent)
    requires LoginImpliesOnboarded(s.store) && NoLoneLoginWrite(i)
    ensures LoginImpliesOnboarded(Apply(s, i).store)
  {
  }

  /**
   * The session invariant holds after every run of intents that starts from a store satisfying it,
   * failures included, as long as no final onboarding step writes `isLoggedIn`
   * while its write of the onboarding flag fails.
   */
  lemma {:induction false} RunKeepsLoginImpliesOnboarded(s: AppState, xs: seq<Intent>)
    requires LoginImpliesOnboarded(s.store)
    requires forall k | 0 <= k < |xs| :: NoLoneLoginWrite(xs[k])
    ensures LoginImpliesOnboarded(Run(s, xs).store)
    decreases |xs|
  {
    if xs != [] {
      ApplyKeepsLoginImpliesOnboarded(s, xs[0]);
      RunKeepsLoginImpliesOnboarded(Apply(s, xs[0]), xs[1..]);
    }
  }

  /**
   * The two writes of the final onboarding step are not atomic: when only the
   * `isLoggedIn` write succeeds, the session invariant breaks on a freshly installed app.
   */
  lemma LoneLoginWriteBreaksInvariant()
    ensures LoginImpliesOnboarded(Boot(map[], true).store)
    ensures !LoginImpliesOnboarded(Apply(Boot(map[], true), OnboardingDone(false, true)).store)
  {
  }

  /** A run only appends to the call log. */
  lemma {:induction false} RunExtendsCalls(s: AppState, xs: seq<Intent>)
    ensures s.calls <= Run(s, xs).calls
    decreases |xs|
  {
    if xs != [] {
      RunExtendsCalls(Apply(s, xs[0]), xs[1..]);
    }
  }

  /**
   * Failed store calls change nothing but the call log: the store, the history
   * and the in-memory fields are those of the start of the run.
   */
  lemma {:induction false} FailedRunChangesNothing(s: AppState, xs: seq<Intent>)
    requires forall k | 0 <= k < |xs| :: AllStoreCallsFail(xs[k])
    ensures Run(s, xs) == s.(calls := Run(s, xs).calls)
    ensures forall k | |s.calls| <= k < |Run(s, xs).calls| :: !IsNavigation(Run(s, xs).calls[k])
    decreases |xs|
  {
    if xs != [] {
      var t := Apply(s, xs[0]);
      FailedRunChangesNothing(t, xs[1..]);
      RunExtendsCalls(t, xs[1..]);
      assert !IssuesNavigation(t.calls[|s.calls|..]);
      var u := Run(t, xs[1..]);
      forall k | |s.calls| <= k < |u.calls| ensures !IsNavigation(u.calls[k]) {
        if k < |t.calls| {
          assert u.calls[k] == t.calls[k] == t.calls[|s.calls|..][k - |s.calls|];
        }
      }
    }
  }

  /** A run that writes no "true" under `isLoggedIn` keeps a store without it. */
  lemma {:induction false} RunKeepsLoggedOut(s: AppState, xs: seq<Intent>)
    requires GetItem(s.store, LoggedInKey) != Some(TrueFlag)
    requires forall k | 0 <= k < |xs| :: NoLoginWrite(xs[k])
    ensures GetItem(Run(s, xs).store, LoggedInKey) != Some(TrueFlag)
    decreases |xs|
  {
    if xs != [] {
      var t := Apply(s, xs[0]);
      if xs[0].LogoutRequested? && xs[0].removeOk {
        assert LoggedInKey in LogoutKeys;
      }
      RunKeepsLoggedOut(t, xs[1..]);
    }
  }

  /**
   * After a successful logout, a restart resolves to `Welcome` and not
   * authenticated, whatever the state before the logout, unless some later
   * final onboarding step has written `isLoggedIn` again.
   */
  lemma RestartAfterLogout(s: AppState, xs: seq<Intent>, readOk: bool)
    requires forall k | 0 <= k < |xs| :: NoLoginWrite(xs[k])
    ensures Boot(Run(Logout(s, true), xs).store, readOk).initialRoute == Welcome
    ensures !Boot(Run(Logout(s, true), xs).store, readOk).isAuthenticated
  {
    assert LoggedInKey in LogoutKeys;
    RunKeepsLoggedOut(Logout(s, true), xs);
  }

  /**
   * Both flags are stored before the history is reset, so a restart after a
   * successful final onboarding step resolves to `Main` whether or not the
   * reset happened.
   */
  lemma RestartAfterOnboarding(s: AppState)
    ensures Boot(CompleteOnboarding(s, true, true).store, true).initialRoute == Main
    ensures Boot(CompleteOnboarding(s, true, true).store, true).isAuthenticated
  {
  }

  /** `Apply` with the final onboarding step's writes done in order. */
  function ApplyInOrder(s: AppState, i: Intent): AppState
  {
    match i
    case WelcomeDone(ok) => CompleteWelcome(s, ok)
    case OnboardingDone(ok1, ok2) => CompleteOnboardingInOrder(s, ok1, ok2)
    case LogoutRequested(ok) => Logout(s, ok)
  }

  function RunInOrder(s: AppState, xs: seq<Intent>): AppState
    decreases |xs|
  {
    if xs == [] then s else RunInOrder(ApplyInOrder(s, xs[0]), xs[1..])
  }

  /**
   * With the final step's writes in order, the session invariant holds after
   * every run, whichever store calls fail.
   */
  lemma {:induction false} InOrderRunKeepsLoginImpliesOnboarded(s: AppState, xs: seq<Intent>)
    requires LoginImpliesOnboarded(s.store)
    ensures LoginImpliesOnboarded(RunInOrder(s, xs).store)
    decreases |xs|
  {
    if xs != [] {
      var t := ApplyInOrder(s, xs[0]);
      if xs[0].LogoutRequested? && xs[0].removeOk {
        assert LoggedInKey in LogoutKeys;
      }
      assert LoginImpliesOnboarded(t.store);
      InOrderRunKeepsLoginImpliesOnboarded(t, xs[1..]);
    }
  }

}
