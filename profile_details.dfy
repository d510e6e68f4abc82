/** The profile panel (frontend/src/components/ProfileDetails.tsx): editing the user's name, the
    list of connected accounts with their labels and icons, and removing an account after a
    confirmation dialog. The server calls are function parameters. */
module ProfileDetails {
  import opened Wrappers
  import opened Accounts
  import opened TextUtil
  import PostService

  const NameUpdatedMessage := "Name updated successfully"
  const NameFailedMessage := "Failed to update user name"
  const RemovedSuffix := " account removed successfully"
  const FailedRemovePrefix := "Failed to remove "
  const FailedRemoveSuffix := " account"

  datatype Severity = Info | Success | Error

  datatype SnackbarProps = SnackbarProps(message: string, severity: Severity)

  /** The panel's state hooks, with the requests sent to the server and the store actions
      dispatched, in order (the reducers for those actions are not part of this model). */
  datatype ProfileView = ProfileView(
    isEditing: bool,
    name: string,
    snackbarOpen: bool,
    snackbar: SnackbarProps,
    confirmDialogOpen: bool,
    selectedProviderToRemove: Option<string>,
    nameRequests: seq<string>,
    nameUpdates: seq<string>,
    removeRequests: seq<string>,
    removals: seq<string>)

  /** The state when the panel opens: `userInfo?.name || ''`. */
  function InitialView(u: Option<UserInfo>): (r: ProfileView)
    ensures !r.isEditing && !r.confirmDialogOpen && r.selectedProviderToRemove.None?
    ensures r.name == (if u.Some? && u.value.name.Some? then u.value.name.value else "")
  {
    var name := if u.Some? && u.value.name.Some? then u.value.name.value else "";
    ProfileView(false, name, false, SnackbarProps("", Info), false, None, [], [], [], [])
  }

  // ---- editing the name ----

  /** `handleSaveClick`. An empty name sends nothing. Otherwise the name is sent; when the server
      answers with the stored name, that name is dispatched, editing ends and success is shown;
      when it fails, editing stays as it was and an error is shown. */
  function SaveClicked(v: ProfileView, server: string -> Option<string>): (r: ProfileView)
    ensures v.name == "" ==> r == v
    ensures v.name != "" ==> r.nameRequests == v.nameRequests + [v.name] && r.snackbarOpen
    ensures v.name != "" && server(v.name).Some? ==>
      && r.nameUpdates == v.nameUpdates + [server(v.name).value]
      && !r.isEditing
      && r.snackbar == SnackbarProps(NameUpdatedMessage, Success)
    ensures v.name != "" && server(v.name).None? ==>
      && r.nameUpdates == v.nameUpdates
      && r.isEditing == v.isEditing
      && r.snackbar == SnackbarProps(NameFailedMessage, Error)
    ensures r.name == v.name && r.confirmDialogOpen == v.confirmDialogOpen
      && r.selectedProviderToRemove == v.selectedProviderToRemove
      && r.removeRequests == v.removeRequests && r.removals == v.removals
  {
    if v.name == "" then v
    else
      var sent := v.(nameRequests := v.nameRequests + [v.name]);
      match server(v.name)
      case Some(stored) =>
        sent.(nameUpdates := v.nameUpdates + [stored], isEditing := false,
              snackbar := SnackbarProps(NameUpdatedMessage, Success), snackbarOpen := true)
      case None =>
        sent.(snackbar := SnackbarProps(NameFailedMessage, Error), snackbarOpen := true)
  }

  /** `handleEditClick` */
  function EditClicked(v: ProfileView): (r: ProfileView)
    ensures r.isEditing && r == v.(isEditing := true)
  {
    v.(isEditing := true)
  }

  /** Starting to edit and saving a non-empty name ends editing exactly when the server accepts
      the name, and the store only hears of a name the server answered with. */
  lemma EditThenSave(v: ProfileView, server: string -> Option<string>)
    requires v.name != ""
    ensures var r := SaveClicked(EditClicked(v), server);
      && (r.isEditing <==> server(v.name).None?)
      && (|r.nameUpdates| == |v.nameUpdates| + 1 <==> server(v.name).Some?)
      && (server(v.name).Some? ==> r.nameUpdates[|v.nameUpdates|] == server(v.name).value)
  {
  }

  // ---- removing an account ----

  /** `handleRemoveClick`: remember the provider and ask for confirmation. */
  function RemoveClicked(v: ProfileView, provider: string): (r: ProfileView)
    ensures r.confirmDialogOpen && r.selectedProviderToRemove == Some(provider)
    ensures r == v.(confirmDialogOpen := true, selectedProviderToRemove := Some(provider))
  {
    v.(selectedProviderToRemove := Some(provider), confirmDialogOpen := true)
  }

  /** `!selectedProviderToRemove`: nothing selected, or the empty name. */
  predicate NothingSelected(selected: Option<string>) {
    selected.None? || selected.value == ""
  }

  function RemovedMessage(provider: string): string {
    provider + RemovedSuffix
  }

  function FailedRemoveMessage(provider: string): string {
    FailedRemovePrefix + provider + FailedRemoveSuffix
  }

  /** `handleConfirmRemove`. With nothing selected it returns at once. Otherwise the removal is
      sent; the store is told only when the server accepts, and a message naming the provider
      says how it went; in either case the dialog then closes and the selection is cleared. */
  function ConfirmRemoved(v: ProfileView, server: string -> bool): (r: ProfileView)
    ensures NothingSelected(v.selectedProviderToRemove) ==> r == v
    ensures !NothingSelected(v.selectedProviderToRemove) ==>
      var p := v.selectedProviderToRemove.value;
      && r.removeRequests == v.removeRequests + [p]
      && r.removals == (if server(p) then v.removals + [p] else v.removals)
      && r.snackbarOpen
      && r.snackbar == (if server(p) then SnackbarProps(RemovedMessage(p), Success)
                        else SnackbarProps(FailedRemoveMessage(p), Error))
      && !r.confirmDialogOpen && r.selectedProviderToRemove.None?
    ensures r.isEditing == v.isEditing && r.name == v.name
      && r.nameRequests == v.nameRequests && r.nameUpdates == v.nameUpdates
  {
    if NothingSelected(v.selectedProviderToRemove) then v
    else
      var p := v.selectedProviderToRemove.value;
      var sent := v.(removeRequests := v.removeRequests + [p]);
      var reported :=
        if server(p) then
          sent.(removals := v.removals + [p], snackbar := SnackbarProps(RemovedMessage(p), Success), snackbarOpen := true)
        else
          sent.(snackbar := SnackbarProps(FailedRemoveMessage(p), Error), snackbarOpen := true);
      reported.(confirmDialogOpen := false, selectedProviderToRemove := None)
  }

  /** The provider a removal message is about, read back from either message. */
  function ProviderOfMessage(message: string): (r: Option<string>)
    ensures r.Some? ==> message == RemovedMessage(r.value) || message == FailedRemoveMessage(r.value)
  {
    if |message| >= |RemovedSuffix| && message[|message| - |RemovedSuffix|..] == RemovedSuffix then
      Some(message[..|message| - |RemovedSuffix|])
    else if FailedRemovePrefix <= message && |message| >= |FailedRemovePrefix| + |FailedRemoveSuffix|
         && message[|message| - |FailedRemoveSuffix|..] == FailedRemoveSuffix then
      Some(message[|FailedRemovePrefix|..|message| - |FailedRemoveSuffix|])
    else
      None
  }

  /** Confirming the removal of a clicked account sends that provider once, reports on that
      provider, and leaves no dialog open and nothing selected, whether or not the server agrees. */
  lemma RemoveThenConfirm(v: ProfileView, provider: string, server: string -> bool)
    requires provider != ""
    ensures var r := ConfirmRemoved(RemoveClicked(v, provider), server);
      && r.removeRequests == v.removeRequests + [provider]
      && (r.removals == v.removals + [provider] <==> server(provider))
      && (r.snackbar.severity == Success <==> server(provider))
      && !r.confirmDialogOpen && r.selectedProviderToRemove.None?
  {
    var r := ConfirmRemoved(RemoveClicked(v, provider), server);
    if !server(provider) {
      assert |r.removals| != |v.removals + [provider]|;
    }
  }

  /** Both removal messages name the provider they are about. */
  lemma RemovalMessageNamesProvider(provider: string)
    ensures ProviderOfMessage(RemovedMessage(provider)) == Some(provider)
    ensures ProviderOfMessage(FailedRemoveMessage(provider)) == Some(provider)
  {
    var m := RemovedMessage(provider);
    assert m[|m| - |RemovedSuffix|..] == RemovedSuffix;
    assert m[..|m| - |RemovedSuffix|] == provider;
    var f := FailedRemoveMessage(provider);
    assert f[|f| - 1] == FailedRemoveSuffix[|FailedRemoveSuffix| - 1] == 't';
    assert RemovedSuffix[|RemovedSuffix| - 1] == 'y';
    assert !(|f| >= |RemovedSuffix| && f[|f| - |RemovedSuffix|..] == RemovedSuffix) by {
      if |f| >= |RemovedSuffix| {
        assert f[|f| - |RemovedSuffix|..][|RemovedSuffix| - 1] == 't';
      }
    }
    assert FailedRemovePrefix <= f;
    assert f[|f| - |FailedRemoveSuffix|..] == FailedRemoveSuffix;
    assert f[|FailedRemovePrefix|..|f| - |FailedRemoveSuffix|] == provider;
  }

  // ---- the account list ----

  /** The name shown for an account: a Facebook account with pages shows its first page,
      any other account its profile name. */
  function DisplayName(provider: string, account: SocialAccount): (r: string)
    ensures provider == PostService.FacebookKey && account.userPages.Some? && |account.userPages.value| > 0 ==>
      r == account.userPages.value[0].pageName
    ensures !(provider == PostService.FacebookKey && account.userPages.Some? && |account.userPages.value| > 0) ==>
      r == account.profileName
  {
    if provider == PostService.FacebookKey && account.userPages.Some? && |account.userPages.value| > 0 then
      account.userPages.value[0].pageName
    else
      account.profileName
  }

  /** The label on an account's button: its display name, or the capitalised provider when
      that name is empty. */
  function Label(provider: string, account: SocialAccount): (r: string)
    ensures DisplayName(provider, account) != "" ==> r == DisplayName(provider, account)
    ensures DisplayName(provider, account) == "" ==> r == Capitalize(provider)
  {
    var shown := DisplayName(provider, account);
    if shown != "" then shown else Capitalize(provider)
  }

  /** A label is empty only for an account with no name to show under an empty provider name;
      a fallback label is the provider's name with its first letter in capitals. */
  lemma LabelNonEmpty(provider: string, account: SocialAccount)
    ensures Label(provider, account) == "" <==> DisplayName(provider, account) == "" && provider == ""
    ensures DisplayName(provider, account) == "" && provider != "" ==>
      && |Label(provider, account)| == |provider|
      && Label(provider, account)[1..] == provider[1..]
      && Label(provider, account)[0] == UpperAscii(provider[0])
  {
  }

  /** The icon for a provider, with the colour it is drawn in. */
  datatype IconKind = LinkedInIcon | FacebookRoundedIcon | XIcon | InstagramIcon

  datatype Icon = Icon(kind: IconKind, color: string)

  const Blue := "#1877F2"
  const Black := "black"
  const Pink := "#EE1973"

  predicate KnownProvider(provider: string) {
    || provider == PostService.LinkedInKey || provider == PostService.FacebookKey
    || provider == PostService.TwitterKey || provider == PostService.InstagramKey
  }

  /** `getIcon`: one icon for each of the four providers, none for any other. */
  function GetIcon(provider: string): (r: Option<Icon>)
    ensures r.Some? <==> KnownProvider(provider)
  {
    if provider == PostService.LinkedInKey then Some(Icon(LinkedInIcon, Blue))
    else if provider == PostService.FacebookKey then Some(Icon(FacebookRoundedIcon, Blue))
    else if provider == PostService.TwitterKey then Some(Icon(XIcon, Black))
    else if provider == PostService.InstagramKey then Some(Icon(InstagramIcon, Pink))
    else None
  }

  /** The provider each icon stands for. */
  function ProviderOfIcon(kind: IconKind): string {
    match kind
    case LinkedInIcon => PostService.LinkedInKey
    case FacebookRoundedIcon => PostService.FacebookKey
    case XIcon => PostService.TwitterKey
    case InstagramIcon => PostService.InstagramKey
  }

  /** The four provider names differ. */
  lemma ProvidersDistinct()
    ensures PostService.LinkedInKey != PostService.FacebookKey && PostService.LinkedInKey != PostService.TwitterKey
    ensures PostService.LinkedInKey != PostService.InstagramKey && PostService.FacebookKey != PostService.TwitterKey
    ensures PostService.FacebookKey != PostService.InstagramKey && PostService.TwitterKey != PostService.InstagramKey
  {
    assert PostService.LinkedInKey[0] == 'l' && PostService.FacebookKey[0] == 'f';
    assert PostService.TwitterKey[0] == 't' && PostService.InstagramKey[0] == 'i';
  }

  /** Icons tell the providers apart: the icon of a known provider stands for that provider,
      and every icon kind is the icon of the provider it stands for. */
  lemma IconRoundTrip(provider: string, kind: IconKind)
    ensures GetIcon(provider).Some? ==> ProviderOfIcon(GetIcon(provider).value.kind) == provider
    ensures GetIcon(ProviderOfIcon(kind)).Some? && GetIcon(ProviderOfIcon(kind)).value.kind == kind
  {
    ProvidersDistinct();
  }

  /** The panel component: its state hooks and the handlers that update them. */
  class ProfilePanel {
    var isEditing: bool
    var name: string
    var snackbarOpen: bool
    var snackbar: SnackbarProps
    var confirmDialogOpen: bool
    var selectedProviderToRemove: Option<string>
    var nameRequests: seq<string>
    var nameUpdates: seq<string>
    var removeRequests: seq<string>
    var removals: seq<string>

    function State(): ProfileView
      reads this
    {
      ProfileView(isEditing, name, snackbarOpen, snackbar, confirmDialogOpen, selectedProviderToRemove,
                  nameRequests, nameUpdates, removeRequests, removals)
    }

    constructor (u: Option<UserInfo>)
      ensures State() == InitialView(u)
    {
      isEditing := false;
      name := if u.Some? && u.value.name.Some? then u.value.name.value else "";
      snackbarOpen := false;
      snackbar := SnackbarProps("", Info);
      confirmDialogOpen := false;
      selectedProviderToRemove := None;
      nameRequests := [];
      nameUpdates := [];
      removeRequests := [];
      removals := [];
    }

    method HandleEditClick()
      modifies this
      ensures State() == EditClicked(old(State()))
    {
      isEditing := true;
    }

    method HandleSaveClick(server: string -> Option<string>)
      modifies this
      ensures State() == SaveClicked(old(State()), server)
    {
      if name == "" {
        return;
      }
      nameRequests := nameRequests + [name];
      var result := server(name);
      if result.Some? {
        nameUpdates := nameUpdates + [result.value];
        isEditing := false;
        snackbar := SnackbarProps(NameUpdatedMessage, Success);
        snackbarOpen := true;
      } else {
        snackbar := SnackbarProps(NameFailedMessage, Error);
        snackbarOpen := true;
      }
    }

    method HandleRemoveClick(provider: string)
      modifies this
      ensures State() == RemoveClicked(old(State()), provider)
    {
      selectedProviderToRemove := Some(provider);
      confirmDialogOpen := true;
    }

    method HandleConfirmRemove(server: string -> bool)
      modifies this
      ensures State() == ConfirmRemoved(old(State()), server)
    {
      if selectedProviderToRemove.None? || selectedProviderToRemove.value == "" {
        return;
      }
      var p := selectedProviderToRemove.value;
      removeRequests := removeRequests + [p];
      if server(p) {
        removals := removals + [p];
        snackbar := SnackbarProps(RemovedMessage(p), Success);
        snackbarOpen := true;
      } else {
        snackbar := SnackbarProps(FailedRemoveMessage(p), Error);
        snackbarOpen := true;
      }
      confirmDialogOpen := false;
      selectedProviderToRemove := None;
    }
  }
}
