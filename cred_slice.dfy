/** The `auth` slice of the front-end store: the signed-in user and the two tokens, changed by
    the reducers `setCredentials`, `updateUser` and `logout`. */
module CredSlice {
  import opened Wrappers
  import opened Accounts

  datatype AuthState = AuthState(
    userInfo: Option<UserInfo>,
    accessToken: Option<string>,
    refreshToken: Option<string>)

  /** The three actions the slice exports. */
  datatype Action =
    | SetCredentials(userInfo: UserInfo, accessToken: string, refreshToken: string)
    | UpdateUser(provider: string, profileName: string, profilePicture: Option<string>)
    | Logout

  /** The user after `updateUser`: an account map is created when absent, and the provider's
      entry becomes exactly the payload's name and picture (any earlier entry, pages included,
      is replaced). Nothing else about the user changes. */
  function WithAccount(u: UserInfo, provider: string, profileName: string, profilePicture: Option<string>): (r: UserInfo)
    ensures r.name == u.name && r.email == u.email
    ensures r.socialAccounts.Some?
    ensures provider in r.socialAccounts.value
    ensures r.socialAccounts.value[provider] == SocialAccount(profileName, profilePicture, None)
    ensures forall p :: p != provider ==> (p in r.socialAccounts.value <==> p in AccountsOf(Some(u)))
    ensures forall p :: p != provider && p in r.socialAccounts.value ==>
      r.socialAccounts.value[p] == AccountsOf(Some(u))[p]
  {
    var accounts := AccountsOf(Some(u));
    u.(socialAccounts := Some(accounts[provider := SocialAccount(profileName, profilePicture, None)]))
  }

  /** The reducer: the state after one action. */
  function Reduce(s: AuthState, a: Action): (r: AuthState)
    ensures a.SetCredentials? ==>
      r.userInfo == Some(a.userInfo) && r.accessToken == Some(a.accessToken) && r.refreshToken == Some(a.refreshToken)
    ensures a.UpdateUser? ==> r.accessToken == s.accessToken && r.refreshToken == s.refreshToken
    ensures a.UpdateUser? ==> (r.userInfo.None? <==> s.userInfo.None?)
    ensures a.UpdateUser? && s.userInfo.None? ==> r == s
    ensures a.UpdateUser? && s.userInfo.Some? ==>
      r.userInfo == Some(WithAccount(s.userInfo.value, a.provider, a.profileName, a.profilePicture))
    ensures a.Logout? ==> r.userInfo.None? && r.accessToken.None? && r.refreshToken.None?
  {
    match a
    case SetCredentials(u, access, refresh) => AuthState(Some(u), Some(access), Some(refresh))
    case UpdateUser(provider, profileName, profilePicture) =>
      if s.userInfo.None? then s
      else s.(userInfo := Some(WithAccount(s.userInfo.value, provider, profileName, profilePicture)))
    case Logout => AuthState(None, None, None)
  }

  /** After `updateUser` on a signed-in user the provider is connected; the number of connected
      accounts grows by one when the provider is new and stays the same otherwise. */
  lemma UpdateUserAccountCount(s: AuthState, provider: string, profileName: string, profilePicture: Option<string>)
    requires s.userInfo.Some?
    ensures var r := Reduce(s, UpdateUser(provider, profileName, profilePicture));
      && provider in AccountsOf(r.userInfo)
      && |AccountsOf(r.userInfo)| == |AccountsOf(s.userInfo)| + (if provider in AccountsOf(s.userInfo) then 0 else 1)
  {
    var before := AccountsOf(s.userInfo);
    var after := AccountsOf(Reduce(s, UpdateUser(provider, profileName, profilePicture)).userInfo);
    assert after.Keys == before.Keys + {provider};
    if provider !in before {
      assert |before.Keys + {provider}| == |before.Keys| + 1;
    } else {
      assert before.Keys + {provider} == before.Keys;
    }
  }

  /** Dispatching the same `updateUser` twice leaves the state of a single dispatch. */
  lemma UpdateUserIdempotent(s: AuthState, provider: string, profileName: string, profilePicture: Option<string>)
    ensures var a := UpdateUser(provider, profileName, profilePicture);
      Reduce(Reduce(s, a), a) == Reduce(s, a)
  {
    var a := UpdateUser(provider, profileName, profilePicture);
    if s.userInfo.Some? {
      var once := Reduce(s, a).userInfo.value.socialAccounts.value;
      var twice := Reduce(Reduce(s, a), a).userInfo.value.socialAccounts.value;
      assert once == twice;
    }
  }

  /** Logging out twice is the same as logging out once. */
  lemma LogoutIdempotent(s: AuthState)
    ensures Reduce(Reduce(s, Logout), Logout) == Reduce(s, Logout)
  {
  }

  /** The slice's state draft, whose fields each reducer assigns in place. */
  class AuthStore {
    var userInfo: Option<UserInfo>
    var accessToken: Option<string>
    var refreshToken: Option<string>

    function State(): AuthState
      reads this
    {
      AuthState(userInfo, accessToken, refreshToken)
    }

    /** The initial state, which the code reads from local storage. */
    constructor (initial: AuthState)
      ensures State() == initial
    {
      userInfo := initial.userInfo;
      accessToken := initial.accessToken;
      refreshToken := initial.refreshToken;
    }

    method SetCredentials(u: UserInfo, access: string, refresh: string)
      modifies this
      ensures State() == Reduce(old(State()), Action.SetCredentials(u, access, refresh))
    {
      userInfo := Some(u);
      accessToken := Some(access);
      refreshToken := Some(refresh);
    }

    method UpdateUser(provider: string, profileName: string, profilePicture: Option<string>)
      modifies this
      ensures State() == Reduce(old(State()), Action.UpdateUser(provider, profileName, profilePicture))
    {
      if userInfo.Some? {
        var user := userInfo.value;
        if user.socialAccounts.None? {
          user := user.(socialAccounts := Some(map[]));
        }
        var accounts := user.socialAccounts.value;
        accounts := accounts[provider := SocialAccount(profileName, profilePicture, None)];
        userInfo := Some(user.(socialAccounts := Some(accounts)));
      }
    }

    method Logout()
      modifies this
      ensures State() == Reduce(old(State()), Action.Logout)
    {
      userInfo := None;
      accessToken := None;
      refreshToken := None;
    }
  }
}
