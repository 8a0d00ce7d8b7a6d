/** The authentication store (src/stores/auth-store.ts): the token, user and
    isAuthenticated flag, and setAuth, clearAuth and hydrate over them and
    over the browser's persisted token and cookie.

    The store's three fields as a value (State) and its three actions as a
    transition function (Step) state what the class's methods do; Run is the
    state after any sequence of actions from the initial one. */
module AuthStore {
  import opened Common
  import opened Types

  // ---------------------------------------------------------------------
  // The persisted token

  /** The cookie lifetime setAuth writes: seven days, in seconds. */
  const CookieMaxAgeSeconds: nat := 60 * 60 * 24 * 7

  /** The cookie string setAuth assigns. */
  function AuthCookie(token: string): string
  {
    "nexus-token=" + token + "; path=/; max-age=" + IntToString(CookieMaxAgeSeconds) + "; SameSite=Lax"
  }

  /** The cookie string clearAuth assigns: an empty value that expires at once. */
  const ClearedCookie := "nexus-token=; path=/; max-age=0"

  /** The auth cookie carries the token and lives 604 800 seconds (7 days). */
  lemma CookieLifetime(token: string)
    ensures CookieMaxAgeSeconds == 7 * 24 * 3600 == 604800
    ensures AuthCookie(token) == "nexus-token=" + token + "; path=/; max-age=604800; SameSite=Lax"
  {
    MaxAgeText();
  }

  /** The decimal text of the cookie lifetime. */
  lemma MaxAgeText()
    ensures IntToString(CookieMaxAgeSeconds) == "604800"
  {
    assert CookieMaxAgeSeconds == 604800;
    assert NatToString(6) == "6";
    NatToStringDigit(6, 0);
    assert NatToString(60) == "60";
    NatToStringDigit(60, 4);
    assert NatToString(604) == "604";
    NatToStringDigit(604, 8);
    assert NatToString(6048) == "6048";
    NatToStringDigit(6048, 0);
    assert NatToString(60480) == "60480";
    NatToStringDigit(60480, 0);
  }

  /** What the store writes in the browser: the localStorage entry
      "nexus-token" and the last cookie string assigned to document.cookie. */
  class Browser {
    var storedToken: Option<string>
    var cookie: string

    constructor(storedToken: Option<string>, cookie: string)
      ensures this.storedToken == storedToken && this.cookie == cookie
    {
      this.storedToken := storedToken;
      this.cookie := cookie;
    }

    /** The API client's answer to a 401: it removes the persisted token
        and expires the cookie, without calling clearAuth, so a store may
        go on holding a token that is no longer persisted. */
    method Unauthorized()
      modifies this
      ensures storedToken == None && cookie == ClearedCookie
    {
      storedToken := None;
      cookie := ClearedCookie;
    }
  }

  // ---------------------------------------------------------------------
  // The store's state as a value

  datatype State = State(token: Option<string>, user: Option<User>, isAuthenticated: bool)

  /** No token, no user, not authenticated. */
  const Initial := State(None, None, false)

  /** A call of setAuth, clearAuth, or hydrate with the token it reads from storage. */
  datatype Action = SetAuth(token: string, user: User) | ClearAuth | Hydrate(stored: Option<string>)

  /** The flag agrees with the token. */
  predicate Consistent(s: State) {
    s.isAuthenticated <==> s.token.Some?
  }

  /** One action: setAuth sets all three fields; clearAuth resets all three;
      hydrate with a truthy stored token sets the token and the flag and
      keeps the user, and with none (or "") changes nothing. */
  function Step(s: State, a: Action): (r: State)
    ensures Consistent(s) ==> Consistent(r)
    ensures a.Hydrate? ==> r.user == s.user
  {
    match a
    case SetAuth(token, user) => State(Some(token), Some(user), true)
    case ClearAuth => Initial
    case Hydrate(stored) =>
      if stored.Some? && stored.value != "" then s.(token := stored, isAuthenticated := true) else s
  }

  /** The state after a sequence of actions from the initial state. */
  function Run(actions: seq<Action>): State
  {
    if actions == [] then Initial
    else Step(Run(actions[..|actions| - 1]), actions[|actions| - 1])
  }

  /** In every reachable state isAuthenticated holds exactly when there is a token. */
  lemma {:induction false} RunConsistent(actions: seq<Action>)
    ensures Consistent(Run(actions))
  {
    if actions != [] {
      RunConsistent(actions[..|actions| - 1]);
    }
  }

  /** After clearAuth nothing of the session is left, whatever came before;
      a later hydrate can restore the token but never the user. */
  lemma {:induction false} ClearThenHydrate(actions: seq<Action>, stored: Option<string>)
    ensures Run(actions + [ClearAuth]) == Initial
    ensures var s := Run(actions + [ClearAuth, Hydrate(stored)]);
      && s.user == None
      && (s.isAuthenticated <==> stored.Some? && stored.value != "")
      && (s.isAuthenticated ==> s.token == stored)
  {
    var a := actions + [ClearAuth];
    assert a[..|a| - 1] == actions;
    var b := actions + [ClearAuth, Hydrate(stored)];
    assert b[..|b| - 1] == a;
  }

  // ---------------------------------------------------------------------
  // The store

  class Store {
    var token: Option<string>
    var user: Option<User>
    var isAuthenticated: bool
    const browser: Browser

    function Snapshot(): State
      reads this
    {
      State(token, user, isAuthenticated)
    }

    /** The flag agrees with the token. Whether the token is still the
        persisted one is not part of it: a 401 removes the persisted token
        behind the store's back (Browser.Unauthorized). */
    predicate Valid()
      reads this
    {
      Consistent(Snapshot())
    }

    constructor(browser: Browser)
      ensures Snapshot() == Initial && this.browser == browser
      ensures Valid()
    {
      token := None;
      user := None;
      isAuthenticated := false;
      this.browser := browser;
    }

    /** setAuth: persists the token, writes the seven-day cookie and sets
        the three fields. */
    method SetAuth(token: string, user: User)
      requires Valid()
      modifies this, browser
      ensures Valid()
      ensures Snapshot() == Step(old(Snapshot()), Action.SetAuth(token, user))
      ensures browser.storedToken == Some(token) && browser.cookie == AuthCookie(token)
    {
      browser.storedToken := Some(token);
      browser.cookie := AuthCookie(token);
      this.token := Some(token);
      this.user := Some(user);
      isAuthenticated := true;
    }

    /** clearAuth: removes the persisted token, expires the cookie and
        resets the three fields. */
    method ClearAuth()
      requires Valid()
      modifies this, browser
      ensures Valid()
      ensures Snapshot() == Step(old(Snapshot()), Action.ClearAuth) == Initial
      ensures browser.storedToken == None && browser.cookie == ClearedCookie
    {
      browser.storedToken := None;
      browser.cookie := ClearedCookie;
      token := None;
      user := None;
      isAuthenticated := false;
    }

    /** hydrate: reads the persisted token and adopts it when it is truthy. */
    method Hydrate()
      requires Valid()
      modifies this
      ensures Valid()
      ensures Snapshot() == Step(old(Snapshot()), Action.Hydrate(browser.storedToken))
    {
      var stored := browser.storedToken;
      if stored.Some? && stored.value != "" {
        token := stored;
        isAuthenticated := true;
      }
    }
  }
}
