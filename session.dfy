/**
 * The session store of `AuthProvider`: three pieces of component state
 * (`token`, `isAuthenticated`, `isLoading`) backed by the single browser
 * storage slot `access_token`. The transitions are stated once as functions
 * on a `Session` value; the `AuthProvider` class performs them step by step
 * on its fields and is proved to agree with them.
 */
module Session {
  import opened Common

  /** Browser `localStorage`, reduced to the `access_token` slot. */
  class LocalStorage {
    var accessToken: Option<string>

    constructor (saved: Option<string>)
      ensures accessToken == saved
    {
      accessToken := saved;
    }

    /** `localStorage.setItem('access_token', value)`. */
    method SetItem(value: string)
      modifies this
      ensures accessToken == Some(value)
    {
      accessToken := Some(value);
    }

    /** `localStorage.removeItem('access_token')`. */
    method RemoveItem()
      modifies this
      ensures accessToken == None
    {
      accessToken := None;
    }
  }

  /** The provider's state together with the content of the storage slot. */
  datatype Session = Session(token: Option<string>, isAuthenticated: bool, isLoading: bool, stored: Option<string>)

  /** The key invariant: the user counts as authenticated exactly when a token is held. */
  predicate Consistent(s: Session) {
    s.isAuthenticated <==> s.token.Some?
  }

  /** The stored slot and the in-memory token agree. */
  predicate InSync(s: Session) {
    s.stored == s.token
  }

  /** The state on mounting, before the restore effect: no token, not authenticated, loading. */
  function Initial(stored: Option<string>): (s: Session)
    ensures s.token == None && !s.isAuthenticated && s.isLoading && s.stored == stored
    ensures Consistent(s)
  {
    Session(None, false, true, stored)
  }

  /**
   * The start-up effect: a truthy stored token becomes the session token and
   * authenticates; a missing or empty one leaves token and flag as they were.
   * Loading ends in every case and the storage is only read.
   */
  function AfterRestore(s: Session): (r: Session)
    ensures r.stored == s.stored && !r.isLoading
    ensures TruthyOpt(s.stored) ==> r.token == s.stored && r.isAuthenticated
    ensures !TruthyOpt(s.stored) ==> r.token == s.token && r.isAuthenticated == s.isAuthenticated
    ensures Consistent(s) ==> Consistent(r)
  {
    if TruthyOpt(s.stored) then s.(token := s.stored, isAuthenticated := true, isLoading := false)
    else s.(isLoading := false)
  }

  /** `login(t)`: the token is stored and held, whatever the state before; loading is untouched. */
  function AfterLogin(s: Session, t: string): (r: Session)
    ensures r.token == Some(t) && r.isAuthenticated && r.isLoading == s.isLoading
    ensures Consistent(r) && InSync(r)
  {
    Session(Some(t), true, s.isLoading, Some(t))
  }

  /** `logout()`: the slot is cleared and the session dropped, whatever the state before. */
  function AfterLogout(s: Session): (r: Session)
    ensures r.token == None && !r.isAuthenticated && r.stored == None && r.isLoading == s.isLoading
    ensures Consistent(r) && InSync(r)
  {
    Session(None, false, s.isLoading, None)
  }

  /** Logging out twice is the same as logging out once. */
  lemma LogoutIdempotent(s: Session)
    ensures AfterLogout(AfterLogout(s)) == AfterLogout(s)
  {
  }

  /** A page load: mount, then run the restore effect. */
  function Boot(stored: Option<string>): (r: Session)
    ensures Consistent(r) && !r.isLoading && r.stored == stored
    ensures r.isAuthenticated <==> TruthyOpt(stored)
    ensures r.isAuthenticated ==> InSync(r)
  {
    AfterRestore(Initial(stored))
  }

  /**
   * An empty token accepted by `login` authenticates the running page, but is
   * not restored on the next page load, because the restore effect treats the
   * empty string as absent.
   */
  lemma EmptyTokenNotRestored(s: Session)
    ensures AfterLogin(s, "").isAuthenticated
    ensures !Boot(AfterLogin(s, "").stored).isAuthenticated
  {
  }

  /** The context value `useAuth` hands out. */
  datatype AuthContextValue = AuthContextValue(isAuthenticated: bool, isLoading: bool, token: Option<string>)

  const OutsideProviderMessage := "useAuth must be used within AuthProvider"

  /** `useAuth()`: outside a provider there is no context and the hook throws. */
  function UseAuth(context: Option<AuthContextValue>): (r: Result<AuthContextValue, Error>)
    ensures r.Ok? <==> context.Some?
    ensures r.Ok? ==> r.value == context.value
    ensures r.Err? ==> r.error.message == OutsideProviderMessage
  {
    if context.Some? then Ok(context.value) else Err(PlainError(OutsideProviderMessage))
  }

  /** The `AuthProvider` component's state, updated in place. */
  class AuthProvider {
    var token: Option<string>
    var isAuthenticated: bool
    var isLoading: bool
    const storage: LocalStorage

    function State(): Session
      reads this, storage
    {
      Session(token, isAuthenticated, isLoading, storage.accessToken)
    }

    ghost predicate Valid()
      reads this, storage
    {
      Consistent(State())
    }

    function Context(): (c: AuthContextValue)
      reads this
      ensures c.isAuthenticated == isAuthenticated && c.token == token && c.isLoading == isLoading
    {
      AuthContextValue(isAuthenticated, isLoading, token)
    }

    /** Mounting the provider: the `useState` initial values; storage is not touched yet. */
    constructor (storage: LocalStorage)
      ensures this.storage == storage
      ensures State() == Initial(storage.accessToken) && Valid()
    {
      token := None;
      isAuthenticated := false;
      isLoading := true;
      this.storage := storage;
    }

    /** The mount effect that reads the saved token. */
    method Restore()
      requires Valid()
      modifies this
      ensures Valid()
      ensures State() == AfterRestore(old(State()))
    {
      var savedToken := storage.accessToken;
      if TruthyOpt(savedToken) {
        token := savedToken;
        isAuthenticated := true;
      }
      isLoading := false;
    }

    method Login(newToken: string)
      modifies this, storage
      ensures Valid()
      ensures State() == AfterLogin(old(State()), newToken)
    {
      storage.SetItem(newToken);
      token := Some(newToken);
      isAuthenticated := true;
    }

    method Logout()
      modifies this, storage
      ensures Valid()
      ensures State() == AfterLogout(old(State()))
    {
      storage.RemoveItem();
      token := None;
      isAuthenticated := false;
    }
  }
}
