/** The page where a user connects social accounts (frontend/src/pages/user/Connect.tsx): the
    provider buttons, the account data handed back by the server after a login, the Facebook
    page picker and the Next button. */
module Connect {
  import opened Wrappers
  import opened Accounts
  import CredSlice

  const AlreadyConnectedMessage := "Already connected"
  /** Where the back end starts a provider's login. */
  const ConnectUrlPrefix := "https://backend.frostbay.online/connect/"
  const ConnectRoute := "/connect"
  const SuccessRoute := "/success"
  const DashboardRoute := "/dashboard"

  /** A Facebook page as the server returns it: its name, its picture and whatever else it sends. */
  datatype ReturnedPage = ReturnedPage(pageName: string, pageImage: string, others: map<string, string>)

  /** The Facebook profile the server returns when the user still has to pick pages. */
  datatype FbProfile = FbProfile(provider: string, profileName: string)

  /** The decoded `user` query parameter. */
  datatype ReturnedUser = ReturnedUser(
    userProfile: Option<FbProfile>,
    userPages: Option<seq<ReturnedPage>>,
    provider: string,
    profileName: string,
    profilePicture: Option<string>)

  /** The `user` query parameter: missing (or empty), not valid JSON, or decoded. */
  datatype UserParam = Missing | Malformed | Parsed(user: ReturnedUser)

  /** The `updatePages` action the picker dispatches; its reducer is not part of this model. */
  datatype PagesUpdate = PagesUpdate(provider: string, userPages: seq<Page>)

  /** The page's own state, with the routes it navigated to in order, the address it sent the
      browser to, and the `updatePages` actions it dispatched. */
  datatype ConnectView = ConnectView(
    snackbarOpen: bool,
    snackbarMessage: string,
    openFbPagesModal: bool,
    userPages: seq<ReturnedPage>,
    fbUserData: Option<FbProfile>,
    navigation: seq<string>,
    redirect: Option<string>,
    pagesUpdates: seq<PagesUpdate>)

  const InitialView := ConnectView(false, "", false, [], None, [], None, [])

  // ---- provider buttons ----

  /** `userInfo?.socialAccounts && userInfo.socialAccounts[provider]`: an account entry is an
      object, so the test holds exactly when the provider has an entry. */
  predicate AlreadyConnected(u: Option<UserInfo>, provider: string) {
    provider in AccountsOf(u)
  }

  /** `handleSocialLogin`: a connected provider only gets the message; any other sends the browser
      to the provider's login on the back end, and nothing else changes. */
  function SocialLogin(v: ConnectView, u: Option<UserInfo>, provider: string): (r: ConnectView)
    ensures AlreadyConnected(u, provider) ==>
      r == v.(snackbarOpen := true, snackbarMessage := AlreadyConnectedMessage)
    ensures !AlreadyConnected(u, provider) ==>
      r.redirect == Some(ConnectUrlPrefix + provider) && r == v.(redirect := r.redirect)
  {
    if AlreadyConnected(u, provider) then
      v.(snackbarMessage := AlreadyConnectedMessage, snackbarOpen := true)
    else
      v.(redirect := Some(ConnectUrlPrefix + provider))
  }

  /** The provider a login address is for, as the back end reads it from the path. */
  function ProviderOfUrl(url: string): (r: Option<string>)
    ensures r.Some? <==> ConnectUrlPrefix <= url
    ensures r.Some? ==> url == ConnectUrlPrefix + r.value
  {
    if ConnectUrlPrefix <= url then Some(url[|ConnectUrlPrefix|..]) else None
  }

  /** A provider that is not yet connected is sent to a login address naming exactly that
      provider; a connected one is never sent anywhere new. */
  lemma SocialLoginTarget(v: ConnectView, u: Option<UserInfo>, provider: string)
    ensures var r := SocialLogin(v, u, provider);
      && (!AlreadyConnected(u, provider) ==> ProviderOfUrl(r.redirect.value) == Some(provider))
      && (AlreadyConnected(u, provider) ==> r.redirect == v.redirect)
  {
    var url := ConnectUrlPrefix + provider;
    assert ConnectUrlPrefix <= url;
    assert url[|ConnectUrlPrefix|..] == provider;
  }

  // ---- the account the server hands back ----

  /** The effect that reads the `user` parameter: with a Facebook profile the page picker opens
      on the returned pages (none when absent); without one the account is recorded with
      `updateUser` and the page reloads its own route. A missing or malformed parameter changes
      nothing. */
  function ReadUserParam(v: ConnectView, auth: CredSlice.AuthState, param: UserParam): (r: (ConnectView, CredSlice.AuthState))
    ensures !param.Parsed? ==> r == (v, auth)
    ensures param.Parsed? && param.user.userProfile.Some? ==>
      && r.1 == auth
      && r.0.userPages == (if param.user.userPages.Some? then param.user.userPages.value else [])
      && r.0 == v.(openFbPagesModal := true, fbUserData := param.user.userProfile, userPages := r.0.userPages)
    ensures param.Parsed? && param.user.userProfile.None? ==>
      && r.1 == CredSlice.Reduce(auth,
           CredSlice.Action.UpdateUser(param.user.provider, param.user.profileName, param.user.profilePicture))
      && r.0 == v.(navigation := v.navigation + [ConnectRoute])
  {
    match param
    case Missing => (v, auth)
    case Malformed => (v, auth)
    case Parsed(user) =>
      if user.userProfile.Some? then
        var pages := if user.userPages.Some? then user.userPages.value else [];
        (v.(fbUserData := user.userProfile, userPages := pages, openFbPagesModal := true), auth)
      else
        (v.(navigation := v.navigation + [ConnectRoute]),
         CredSlice.Reduce(auth, CredSlice.Action.UpdateUser(user.provider, user.profileName, user.profilePicture)))
  }

  /** A returned account without a Facebook profile, for a signed-in user, ends up connected:
      the button for it then only shows the message. */
  lemma ReturnedAccountConnected(v: ConnectView, auth: CredSlice.AuthState, user: ReturnedUser)
    requires auth.userInfo.Some? && user.userProfile.None?
    ensures var (r, after) := ReadUserParam(v, auth, Parsed(user));
      && AlreadyConnected(after.userInfo, user.provider)
      && SocialLogin(r, after.userInfo, user.provider).redirect == r.redirect
  {
    CredSlice.UpdateUserAccountCount(auth, user.provider, user.profileName, user.profilePicture);
  }

  // ---- the Facebook page picker ----

  /** The pages as stored: only each page's name and picture, in the same order. */
  function ProjectPages(pages: seq<ReturnedPage>): (r: seq<Page>)
    ensures |r| == |pages|
    ensures forall i :: 0 <= i < |pages| ==> r[i].pageName == pages[i].pageName && r[i].pageImage == pages[i].pageImage
  {
    seq(|pages|, i requires 0 <= i < |pages| => Page(pages[i].pageName, pages[i].pageImage))
  }

  /** A stored page as the server would return it, with nothing else attached. */
  function Returned(pages: seq<Page>): (r: seq<ReturnedPage>)
    ensures |r| == |pages|
  {
    seq(|pages|, i requires 0 <= i < |pages| => ReturnedPage(pages[i].pageName, pages[i].pageImage, map[]))
  }

  /** Projecting loses nothing that is stored: projecting pages built from stored pages gives
      those pages back. */
  lemma ProjectReturned(pages: seq<Page>)
    ensures ProjectPages(Returned(pages)) == pages
  {
    var r := ProjectPages(Returned(pages));
    assert forall i | 0 <= i < |pages| :: r[i] == Page(pages[i].pageName, pages[i].pageImage);
  }

  /** `handleModalConfirm`: with a Facebook profile held, the picked pages are stored for its
      provider, the picker closes and the page reloads its route; with none, nothing happens. */
  function ModalConfirm(v: ConnectView, selected: seq<ReturnedPage>): (r: ConnectView)
    ensures v.fbUserData.None? ==> r == v
    ensures v.fbUserData.Some? ==>
      && r.pagesUpdates == v.pagesUpdates + [PagesUpdate(v.fbUserData.value.provider, ProjectPages(selected))]
      && r.navigation == v.navigation + [ConnectRoute]
      && r == v.(pagesUpdates := r.pagesUpdates, openFbPagesModal := false, navigation := r.navigation)
  {
    if v.fbUserData.Some? then
      v.(pagesUpdates := v.pagesUpdates + [PagesUpdate(v.fbUserData.value.provider, ProjectPages(selected))],
         openFbPagesModal := false,
         navigation := v.navigation + [ConnectRoute])
    else
      v
  }

  /** Confirming the pages the server returned stores exactly those pages, in order, for the
      profile's provider. */
  lemma PickerStoresReturnedPages(v: ConnectView, auth: CredSlice.AuthState, user: ReturnedUser, pages: seq<Page>)
    requires user.userProfile.Some? && user.userPages == Some(Returned(pages))
    ensures var (shown, _) := ReadUserParam(v, auth, Parsed(user));
      var r := ModalConfirm(shown, shown.userPages);
      && |r.pagesUpdates| == |v.pagesUpdates| + 1
      && r.pagesUpdates[|v.pagesUpdates|] == PagesUpdate(user.userProfile.value.provider, pages)
      && !r.openFbPagesModal
  {
    ProjectReturned(pages);
  }

  // ---- the Next button ----

  /** `isNextButtonEnabled`: at least two accounts are connected. */
  predicate NextEnabled(u: Option<UserInfo>) {
    |AccountsOf(u)| >= 2
  }

  /** `handleNext`: while disabled nothing happens; otherwise one navigation, to the success
      page after sign-up and to the dashboard otherwise. */
  function Next(v: ConnectView, u: Option<UserInfo>, fromSignup: bool): (r: ConnectView)
    ensures !NextEnabled(u) ==> r == v
    ensures NextEnabled(u) ==>
      && r.navigation == v.navigation + [if fromSignup then SuccessRoute else DashboardRoute]
      && r == v.(navigation := r.navigation)
  {
    if NextEnabled(u) then
      v.(navigation := v.navigation + [if fromSignup then SuccessRoute else DashboardRoute])
    else
      v
  }

  /** Recording two different providers for a signed-in user enables Next, whatever was
      connected before. */
  lemma TwoConnectionsEnableNext(auth: CredSlice.AuthState, p: string, q: string, name: string, picture: Option<string>)
    requires auth.userInfo.Some? && p != q
    ensures var once := CredSlice.Reduce(auth, CredSlice.Action.UpdateUser(p, name, picture));
      var twice := CredSlice.Reduce(once, CredSlice.Action.UpdateUser(q, name, picture));
      NextEnabled(twice.userInfo)
  {
    var once := CredSlice.Reduce(auth, CredSlice.Action.UpdateUser(p, name, picture));
    var twice := CredSlice.Reduce(once, CredSlice.Action.UpdateUser(q, name, picture));
    CredSlice.UpdateUserAccountCount(auth, p, name, picture);
    CredSlice.UpdateUserAccountCount(once, q, name, picture);
    var keys := AccountsOf(twice.userInfo).Keys;
    assert p in keys && q in keys;
    assert |keys - {p}| == |keys| - 1;
    assert q in keys - {p};
  }

  /** Signing out disables Next. */
  lemma LogoutDisablesNext(auth: CredSlice.AuthState)
    ensures !NextEnabled(CredSlice.Reduce(auth, CredSlice.Action.Logout).userInfo)
  {
  }

  /** The page component: its state hooks, the route it was reached with, and the handlers. */
  class ConnectPage {
    var snackbarOpen: bool
    var snackbarMessage: string
    var openFbPagesModal: bool
    var userPages: seq<ReturnedPage>
    var fbUserData: Option<FbProfile>
    var navigation: seq<string>
    var redirect: Option<string>
    var pagesUpdates: seq<PagesUpdate>
    /** `location.state && location.state.fromSignup` */
    const isFromSignup: bool

    function State(): ConnectView
      reads this
    {
      ConnectView(snackbarOpen, snackbarMessage, openFbPagesModal, userPages, fbUserData, navigation, redirect, pagesUpdates)
    }

    constructor (fromSignup: bool)
      ensures State() == InitialView && isFromSignup == fromSignup
    {
      snackbarOpen := false;
      snackbarMessage := "";
      openFbPagesModal := false;
      userPages := [];
      fbUserData := None;
      navigation := [];
      redirect := None;
      pagesUpdates := [];
      isFromSignup := fromSignup;
    }

    method HandleSocialLogin(store: CredSlice.AuthStore, provider: string)
      modifies this
      ensures State() == SocialLogin(old(State()), store.userInfo, provider)
    {
      if store.userInfo.Some? && store.userInfo.value.socialAccounts.Some?
         && provider in store.userInfo.value.socialAccounts.value {
        snackbarMessage := AlreadyConnectedMessage;
        snackbarOpen := true;
      } else {
        redirect := Some(ConnectUrlPrefix + provider);
      }
    }

    /** The effect run when the page mounts. */
    method ReadUser(store: CredSlice.AuthStore, param: UserParam)
      modifies this, store
      ensures (State(), store.State()) == ReadUserParam(old(State()), old(store.State()), param)
    {
      if param.Parsed? {
        var user := param.user;
        if user.userProfile.Some? {
          fbUserData := user.userProfile;
          userPages := if user.userPages.Some? then user.userPages.value else [];
          openFbPagesModal := true;
        } else {
          store.UpdateUser(user.provider, user.profileName, user.profilePicture);
          navigation := navigation + [ConnectRoute];
        }
      }
    }

    method HandleModalConfirm(selected: seq<ReturnedPage>)
      modifies this
      ensures State() == ModalConfirm(old(State()), selected)
    {
      if fbUserData.Some? {
        var pagesData := ProjectPages(selected);
        pagesUpdates := pagesUpdates + [PagesUpdate(fbUserData.value.provider, pagesData)];
        openFbPagesModal := false;
        navigation := navigation + [ConnectRoute];
      }
    }

    method HandleNext(store: CredSlice.AuthStore)
      modifies this
      ensures State() == Next(old(State()), store.userInfo, isFromSignup)
    {
      if |AccountsOf(store.userInfo)| >= 2 {
        if isFromSignup {
          navigation := navigation + [SuccessRoute];
        } else {
          navigation := navigation + [DashboardRoute];
        }
      }
    }
  }
}
