/** The zustand store of frontend/src/contexts/authStore.ts as an object: `set(...)` assigns its
    fields, `localStorage` is a LocalStorage object, and `apiService` is an ApiClient.Client over
    that same storage. Each action is written step by step as in the source and proved to have
    exactly the effect of the matching step function of module Session. A rejected promise is
    the outcome `Rejected`; the store has no other way to throw. */
module AuthStore {
  import opened Wrappers
  import opened BrowserStorage
  import opened ApiClient
  import opened Session

  class Store {
    var user: Option<User>
    var token: Option<string>
    var isAuthenticated: bool
    var isLoading: bool
    const storage: LocalStorage
    const api: Client

    /** The API client reads and clears the store's own `localStorage`. */
    predicate Valid() {
      api.storage == storage
    }

    function CurrentState(): State
      reads this
    {
      State(user, token, isAuthenticated, isLoading)
    }

    function Current(): Machine
      reads this, storage
    {
      Machine(CurrentState(), storage.items)
    }

    /** The browser's record of the client's traffic matches what step s reports. */
    twostate predicate TrafficIs(s: Step)
      reads this, api
    {
      && api.requests == old(api.requests) + s.sent
      && api.locations == old(api.locations) + (if s.redirected then [LoginPath] else [])
    }

    constructor (storage: LocalStorage, api: Client)
      requires api.storage == storage
      ensures Valid() && this.storage == storage && this.api == api
      ensures CurrentState() == Initial
    {
      user := None;
      token := None;
      isAuthenticated := false;
      isLoading := false;
      this.storage := storage;
      this.api := api;
    }

    method Login(credentials: Credentials, reply: Reply<LoginResponse>) returns (outcome: Outcome)
      requires Valid()
      modifies this, storage, api
      ensures var s := LoginStep(old(Current()), credentials, reply);
              Current() == s.after && outcome == s.outcome && TrafficIs(s)
    {
      isLoading := true;
      var response := api.Send(PostLogin(credentials), reply);
      match response {
        case Ok(r) =>
          storage.SetItem(AccessTokenKey, r.accessToken);
          storage.SetItem(RefreshTokenKey, r.refreshToken);
          user, token, isAuthenticated, isLoading := Some(r.user), Some(r.accessToken), true, false;
          outcome := Resolved;
        case Err(e) =>
          isLoading := false;
          outcome := Rejected(e);
      }
    }

    method Logout(reply: Reply<()>) returns (outcome: Outcome)
      requires Valid()
      modifies this, storage, api
      ensures var s := LogoutStep(old(Current()), reply);
              Current() == s.after && outcome == s.outcome && TrafficIs(s)
    {
      var response := api.Send(PostLogout, reply);
      // A rejection is only logged; the clean-up below runs in every case.
      storage.RemoveItem(AccessTokenKey);
      storage.RemoveItem(RefreshTokenKey);
      storage.RemoveItem(UserKey);
      user, token, isAuthenticated, isLoading := None, None, false, false;
      outcome := Resolved;
    }

    method RefreshToken(reply: Reply<LoginResponse>) returns (outcome: Outcome)
      requires Valid()
      modifies this, storage, api
      ensures var s := RefreshStep(old(Current()), reply);
              Current() == s.after && outcome == s.outcome && TrafficIs(s)
    {
      isLoading := true;
      var response := api.RefreshToken(reply);
      match response {
        case Ok(r) =>
          storage.SetItem(AccessTokenKey, r.accessToken);
          storage.SetItem(RefreshTokenKey, r.refreshToken);
          user, token, isAuthenticated, isLoading := Some(r.user), Some(r.accessToken), true, false;
          outcome := Resolved;
        case Err(e) =>
          ClearAuth();
          outcome := Rejected(e);
      }
    }

    method SetUser(u: User)
      modifies this
      ensures Current() == SetUserStep(old(Current()), u).after
    {
      user := Some(u);
    }

    method SetToken(t: string)
      modifies this
      ensures Current() == SetTokenStep(old(Current()), t).after
    {
      token, isAuthenticated := Some(t), true;
    }

    method ClearAuth()
      modifies this, storage
      ensures Current() == ClearAuthStep(old(Current())).after
    {
      storage.RemoveItem(AccessTokenKey);
      storage.RemoveItem(RefreshTokenKey);
      storage.RemoveItem(UserKey);
      user, token, isAuthenticated, isLoading := None, None, false, false;
    }

    method CheckAuth(reply: Reply<User>) returns (outcome: Outcome)
      requires Valid()
      modifies this, storage, api
      ensures var s := CheckAuthStep(old(Current()), reply);
              Current() == s.after && outcome == s.outcome && TrafficIs(s)
    {
      var storedToken := storage.GetItem(AccessTokenKey);
      var storedUser := storage.GetItem(UserKey);
      if !Truthy(storedToken) || !Truthy(storedUser) {
        user, token, isAuthenticated, isLoading := None, None, false, false;
        return ResolvedWith(false);
      }
      isLoading := true;
      var response := api.Send(GetProfile, reply);
      match response {
        case Ok(u) =>
          user, token, isAuthenticated, isLoading := Some(u), storedToken, true, false;
          outcome := ResolvedWith(true);
        case Err(_) =>
          ClearAuth();
          outcome := ResolvedWith(false);
      }
    }
  }
}
