/** The onboarding flag (`WelcomeScreen.js`, `JourneyContinuesScreen.js`):
    the welcome screen stores the user's name and sends them to the main
    app only when `@initial_chat_completed` holds exactly `"true"`; the
    closing screen of the first chat writes that flag. */
module Onboarding {
  import opened Wrappers
  import opened JsText
  import opened Storage

  const INITIAL_CHAT_COMPLETED := "@initial_chat_completed"
  const DONE := "true"

  /** Where a screen sends the user; `Stay` is no navigation. */
  datatype Route = MainApp | ChatRoute | Welcome | Stay

  /** The stored flag is exactly `"true"`. */
  predicate OnboardingDone(items: map<string, string>) {
    Lookup(items, INITIAL_CHAT_COMPLETED) == Some(DONE)
  }

  class WelcomeScreen {
    var name: string
    const store: KeyValueStore

    constructor (store: KeyValueStore)
      ensures this.store == store && name == ""
    {
      this.store := store;
      name := "";
    }

    /** The Continue button is enabled exactly when the name has a visible
        character. */
    function ContinueEnabled(): (enabled: bool)
      reads this
      ensures enabled <==> !AllSpace(name)
    {
      Trim(name) != ""
    }

    /** `loadName`: a stored, non-empty name fills the field. */
    method LoadName(readFails: bool)
      modifies this
      ensures var stored := Lookup(store.items, USER_NAME);
              name == if !readFails && IsTruthy(stored) then stored.value else old(name)
    {
      var stored := store.GetItem(USER_NAME, readFails);
      if stored.Ok? && IsTruthy(stored.value) {
        name := stored.value.value;
      }
    }

    /** `skipScreen` on mount: straight to the main app when onboarding is
        done; otherwise, or when the read throws, the screen stays. */
    method SkipScreen(readFails: bool) returns (route: Route)
      ensures route == MainApp <==> !readFails && OnboardingDone(store.items)
      ensures route != MainApp ==> route == Stay
    {
      var flag := store.GetItem(INITIAL_CHAT_COMPLETED, readFails);
      if flag.Ok? && flag.value == Some(DONE) {
        route := MainApp;
      } else {
        route := Stay;
      }
    }

    /** `handleNavigate`: the name is stored first (operation 0), then the
        flag is read (operation 1). The main app only when both succeed and
        the flag is `"true"`; the first chat otherwise, errors included. */
    method HandleNavigate(failAt: Option<nat>) returns (route: Route)
      modifies store
      ensures store.items == if FailsAt(failAt, 0) then old(store.items) else old(store.items)[USER_NAME := name]
      ensures OnboardingDone(store.items) == OnboardingDone(old(store.items))
      ensures route == MainApp <==>
                !FailsAt(failAt, 0) && !FailsAt(failAt, 1) && OnboardingDone(old(store.items))
      ensures route != MainApp ==> route == ChatRoute
    {
      OtherWritesKeepFlag(store.items, USER_NAME, name);
      var ok := store.SetItem(USER_NAME, name, FailsAt(failAt, 0));
      if !ok {
        return ChatRoute;
      }
      var flag := store.GetItem(INITIAL_CHAT_COMPLETED, FailsAt(failAt, 1));
      if flag.Ok? && flag.value == Some(DONE) {
        route := MainApp;
      } else {
        route := ChatRoute;
      }
    }
  }

  class JourneyContinuesScreen {
    const store: KeyValueStore

    constructor (store: KeyValueStore)
      ensures this.store == store
    {
      this.store := store;
    }

    /** `handleContinue`: the flag is written, and only a write that
        succeeds leads on to the main app. */
    method HandleContinue(fails: bool) returns (route: Route)
      modifies store
      ensures store.items == if fails then old(store.items) else old(store.items)[INITIAL_CHAT_COMPLETED := DONE]
      ensures route == if fails then Stay else MainApp
      ensures route == MainApp ==> OnboardingDone(store.items)
    {
      var ok := store.SetItem(INITIAL_CHAT_COMPLETED, DONE, fails);
      route := if ok then MainApp else Stay;
    }
  }

  /** After the closing screen's write has succeeded, the welcome screen
      lets the user through, also after it has stored the name. */
  lemma ContinueUnlocksWelcome(items: map<string, string>, name: string)
    ensures OnboardingDone(items[INITIAL_CHAT_COMPLETED := DONE])
    ensures OnboardingDone(items[INITIAL_CHAT_COMPLETED := DONE][USER_NAME := name])
  {
    OtherWritesKeepFlag(items[INITIAL_CHAT_COMPLETED := DONE], USER_NAME, name);
  }

  /** A write under any other key leaves the onboarding state as it was. */
  lemma OtherWritesKeepFlag(items: map<string, string>, key: string, v: string)
    requires key != INITIAL_CHAT_COMPLETED
    ensures OnboardingDone(items[key := v]) <==> OnboardingDone(items)
  {
  }

  /** Only the exact text `"true"` counts: `"TRUE"`, `"true "` or `"1"` do
      not. */
  lemma OnlyExactTrue(items: map<string, string>, v: string)
    requires v != DONE
    ensures !OnboardingDone(items[INITIAL_CHAT_COMPLETED := v])
  {
  }

  /** `resetToWelcome`, the main app's reset button: the storage is
      cleared, and only a clear that succeeds leads to the welcome screen. */
  method ResetToWelcome(store: KeyValueStore, fails: bool) returns (route: Route)
    modifies store
    ensures store.items == if fails then old(store.items) else map[]
    ensures route == if fails then Stay else Welcome
  {
    var ok := store.Clear(fails);
    route := if ok then Welcome else Stay;
  }

  /** The reset button followed by the mount of the welcome screen it
      opens: the screen the user ends up on. After a clear that succeeds
      the welcome screen's skip check finds no flag, whether or not its
      read throws, so onboarding starts over; after a failed clear the
      user stays in the main app. */
  method ResetThenSkipCheck(store: KeyValueStore, clearFails: bool, readFails: bool) returns (screen: Route)
    modifies store
    ensures screen == if clearFails then MainApp else Welcome
    ensures !clearFails ==> store.items == map[] && !OnboardingDone(store.items)
  {
    var route := ResetToWelcome(store, clearFails);
    if route == Welcome {
      var welcome := new WelcomeScreen(store);
      var skip := welcome.SkipScreen(readFails);
      screen := if skip == MainApp then MainApp else Welcome;
    } else {
      screen := MainApp;
    }
  }
}
