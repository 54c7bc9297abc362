/** The session state of frontend/src/contexts/AuthContext.tsx: the `user`
    and `loading` cells and the handlers that drive them. The identity call
    `userService.getMe` is an input: the user it returns, or the error it
    fails with. The user service defines no `getMe`, so as written the call
    always throws; GetMeAsWritten is that outcome, and the AsWritten methods
    below run the handlers with it. Navigations requested, by
    `window.location` or the router, are returned in the order they are
    requested. */
module AuthContextState {
  import opened Common
  import opened Types
  import opened Browser
  import opened AuthLib
  import Permissions

  const HomePath: string := "/"

  /** `userService.getMe()` as the code stands: the method does not exist,
      so calling it throws a TypeError. */
  const GetMeAsWritten: Result<User, string> := Err("userService.getMe is not a function")

  class AuthProvider {
    var user: Option<User>
    var loading: bool

    /** useState(null) and useState(true). */
    constructor ()
      ensures user.None? && loading
    {
      user := None;
      loading := true;
    }

    /** fetchUser. Without a token no identity call is made and `user` is
        left alone; a failed identity call logs out and goes to the login
        page; `loading` always ends false. */
    method FetchUser(storage: LocalStorage, inBrowser: bool, me: Result<User, string>)
      returns (calledMe: bool, navigations: seq<string>)
      modifies this, storage
      ensures !loading
      ensures var token := old(GetToken(storage, inBrowser));
        calledMe <==> token.Some? && token.value != ""
      ensures !calledMe ==> user == old(user) && storage.entries == old(storage.entries) && navigations == []
      ensures calledMe && me.Ok? ==>
        user == Some(me.value) && storage.entries == old(storage.entries) && navigations == []
      ensures calledMe && me.Err? ==>
        user == old(user) && storage.entries == AfterLogout(old(storage.entries), inBrowser) &&
        navigations == (if inBrowser then [LoginPath] else []) + [LoginPath]
    {
      navigations := [];
      var token := GetToken(storage, inBrowser);
      calledMe := token.Some? && token.value != "";
      if calledMe {
        match me {
          case Ok(userData) =>
            user := Some(userData);
          case Err(_) =>
            var forced := Logout(storage, inBrowser);
            if forced.Some? {
              navigations := [forced.value];
            }
            navigations := navigations + [LoginPath];
        }
      }
      loading := false;
    }

    /** handleLogin. A failed credential exchange is rethrown; otherwise the
        user is fetched and the home page requested, even when that fetch
        failed, because fetchUser swallows its own error. `loading` always
        ends false. */
    method HandleLogin(username: string, password: string, endpoint: TokenRequest -> TokenResponse,
                       storage: LocalStorage, inBrowser: bool, me: Result<User, string>)
      returns (result: Result<string, string>, navigations: seq<string>)
      modifies this, storage
      ensures !loading
      ensures var sent := LoginAttempts(username, password, endpoint);
        result == AsResult(endpoint(sent[|sent| - 1]))
      ensures result.Err? ==>
        user == old(user) && storage.entries == old(storage.entries) && navigations == []
      ensures result.Ok? ==>
        var fetched := inBrowser && result.value != "";
        user == (if fetched && me.Ok? then Some(me.value) else old(user))
      ensures result.Ok? ==>
        var stored := if inBrowser then old(storage.entries)[TokenKey := result.value] else old(storage.entries);
        var fetched := inBrowser && result.value != "";
        storage.entries == (if fetched && me.Err? then AfterLogout(stored, inBrowser) else stored) &&
        navigations == (if fetched && me.Err? then [LoginPath, LoginPath] else []) + [HomePath]
    {
      loading := true;
      var sent;
      result, sent := Login(username, password, endpoint, storage, inBrowser);
      if result.Err? {
        navigations := [];
        loading := false;
        return;
      }
      var _, fetched := FetchUser(storage, inBrowser, me);
      navigations := fetched + [HomePath];
      loading := false;
    }

    /** fetchUser as the code stands: with a token, the missing getMe throws,
        so the session is logged out instead of loaded. */
    method FetchUserAsWritten(storage: LocalStorage, inBrowser: bool)
      returns (calledMe: bool, navigations: seq<string>)
      modifies this, storage
      ensures !loading && user == old(user)
      ensures calledMe ==> storage.entries == AfterLogout(old(storage.entries), inBrowser) && TokenKey !in storage.entries
      ensures calledMe ==> navigations == [LoginPath, LoginPath]
      ensures !calledMe ==> storage.entries == old(storage.entries) && navigations == []
    {
      calledMe, navigations := FetchUser(storage, inBrowser, GetMeAsWritten);
    }

    /** handleLogin as the code stands: a granted, non-empty token in the
        browser is stored and at once removed again, no user is set, and the
        login page is requested twice before the home page. */
    method HandleLoginAsWritten(username: string, password: string, endpoint: TokenRequest -> TokenResponse,
                                storage: LocalStorage, inBrowser: bool)
      returns (result: Result<string, string>, navigations: seq<string>)
      modifies this, storage
      ensures !loading && user == old(user)
      ensures result.Ok? && inBrowser && result.value != "" ==>
        TokenKey !in storage.entries && navigations == [LoginPath, LoginPath, HomePath]
    {
      result, navigations := HandleLogin(username, password, endpoint, storage, inBrowser, GetMeAsWritten);
    }

    /** handleLogout: drops the token and forgets the user. */
    method HandleLogout(storage: LocalStorage, inBrowser: bool) returns (navigate: Option<string>)
      modifies this, storage
      ensures user.None? && loading == old(loading)
      ensures storage.entries == AfterLogout(old(storage.entries), inBrowser)
      ensures navigate == if inBrowser then Some(LoginPath) else None
    {
      navigate := Logout(storage, inBrowser);
      user := None;
    }

    /** `!!user` */
    function IsAuthenticated(): (r: bool)
      reads this
      ensures r <==> user.Some?
    {
      user.Some?
    }

    /** isAdmin as written, through auth.ts' hasRole: never true. */
    function IsAdminAsWritten(): (r: bool)
      reads this
      ensures !r
    {
      if user.Some? then HasRoleAsWritten(user.value, AdminRole) else false
    }

    /** isAdmin with the role test of usePermissions. */
    function IsAdmin(): (r: bool)
      reads this
      ensures r ==> IsAuthenticated()
      ensures r <==> Permissions.HasRole(user, AdminRole)
    {
      Permissions.HasRole(user, AdminRole)
    }
  }
}
