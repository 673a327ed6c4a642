/**
 * The root navigator as the app runs it: its in-memory fields, the store it
 * talks to and the navigator history are fields that each handler updates in
 * the order the handler performs its steps. Each method is specified by the
 * matching transition of module `Session`.
 */
module Navigator {

  import opened Wrappers
  import opened Session

  class AppNavigator {
    var store: Store
    var stack: seq<Route>
    var isAuthenticated: bool
    var initialRoute: Route
    var isLoading: bool
    var calls: seq<Call>

    function State(): AppState
      reads this
    {
      AppState(store, stack, isAuthenticated, initialRoute, isLoading, calls)
    }

    /** Created before the startup check: not authenticated, `Welcome`, loading, no navigator. */
    constructor (persisted: Store)
      ensures State() == Launch(persisted)
      ensures isLoading && !isAuthenticated && initialRoute == Welcome && stack == []
    {
      store := persisted;
      stack := [];
      isAuthenticated := false;
      isLoading := true;
      initialRoute := Welcome;
      calls := [];
    }

    /** The startup check; `readOk` is false when reading the two flags throws. */
    method CheckAuthStatus(readOk: bool)
      modifies this
      ensures State() == Resolve(old(State()), readOk)
      ensures !isLoading
      ensures initialRoute == Main <==> readOk && BothFlagsSet(store)
    {
      if readOk {
        var onboarding := GetItem(store, OnboardingKey);
        var loggedIn := GetItem(store, LoggedInKey);
        if onboarding == Some(TrueFlag) && loggedIn == Some(TrueFlag) {
          initialRoute := Main;
          isAuthenticated := true;
        } else {
          initialRoute := Welcome;
          isAuthenticated := false;
        }
      } else {
        initialRoute := Welcome;
      }
      isLoading := false;
    }

    /** A render: the loading gate, then the navigator mounted on `initialRoute`. */
    method Render()
      modifies this
      ensures State() == RenderGate(old(State()))
      ensures !isLoading ==> stack != []
    {
      if !isLoading && stack == [] {
        stack := [initialRoute];
      }
    }

    /** The welcome handler; `writeOk` is the outcome of its one store write. */
    method HandleOnboardingComplete(writeOk: bool)
      modifies this
      ensures State() == CompleteWelcome(old(State()), writeOk)
      ensures writeOk ==> GetItem(store, OnboardingKey) == Some(TrueFlag)
      ensures isAuthenticated == old(isAuthenticated) && initialRoute == old(initialRoute)
    {
      calls := calls + [SetItem(OnboardingKey, TrueFlag, writeOk)];
      if !writeOk {
        return;
      }
      store := store[OnboardingKey := TrueFlag];
      if stack != [] {
        calls := calls + [Navigate(UserInfo)];
        stack := stack + [UserInfo];
      }
    }

    /** The final onboarding handler; one outcome per store write. */
    method HandleOnboardingCompleteFinal(onboardingWriteOk: bool, loggedInWriteOk: bool)
      modifies this
      ensures State() == CompleteOnboarding(old(State()), onboardingWriteOk, loggedInWriteOk)
      ensures onboardingWriteOk && loggedInWriteOk ==> BothFlagsSet(store) && isAuthenticated && initialRoute == Main
      ensures onboardingWriteOk && loggedInWriteOk && old(stack) != [] ==> stack == [Main]
      ensures !(onboardingWriteOk && loggedInWriteOk) ==>
        isAuthenticated == old(isAuthenticated) && initialRoute == old(initialRoute) && stack == old(stack)
    {
      calls := calls + [SetItem(OnboardingKey, TrueFlag, onboardingWriteOk)];
      if onboardingWriteOk {
        store := store[OnboardingKey := TrueFlag];
      }
      calls := calls + [SetItem(LoggedInKey, TrueFlag, loggedInWriteOk)];
      if loggedInWriteOk {
        store := store[LoggedInKey := TrueFlag];
      }
      if !(onboardingWriteOk && loggedInWriteOk) {
        return;
      }
      isAuthenticated := true;
      initialRoute := Main;
      if stack != [] {
        calls := calls + [Reset(Main)];
        stack := [Main];
      }
    }

    /** The logout handler; `removeOk` is the outcome of its one bulk removal. */
    method HandleLogout(removeOk: bool)
      modifies this
      ensures State() == Logout(old(State()), removeOk)
      ensures removeOk ==> !isAuthenticated && initialRoute == Welcome && !BothFlagsSet(store)
      ensures removeOk && old(stack) != [] ==> stack == [Welcome]
      ensures !removeOk ==>
        store == old(store) && isAuthenticated == old(isAuthenticated) && initialRoute == old(initialRoute) && stack == old(stack)
    {
      calls := calls + [MultiRemove(LogoutKeys, removeOk)];
      if !removeOk {
        return;
      }
      store := store - {LoggedInKey, UserDataKey, OnboardingKey, UserProfileKey};
      isAuthenticated := false;
      initialRoute := Welcome;
      if stack != [] {
        calls := calls + [Reset(Welcome)];
        stack := [Welcome];
      }
    }
  }

}
