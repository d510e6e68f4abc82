/** The shapes of the signed-in user and of the connected social accounts, as the front end
    declares them in frontend/src/types/Types.ts. */
module Accounts {
  import opened Wrappers

  /** A Facebook page the user manages. */
  datatype Page = Page(pageName: string, pageImage: string)

  /** One connected provider account; `profilePicture` and `userPages` may be absent. */
  datatype SocialAccount = SocialAccount(
    profileName: string,
    profilePicture: Option<string>,
    userPages: Option<seq<Page>>)

  /** The signed-in user; `socialAccounts` maps a provider name to its account and may be absent. */
  datatype UserInfo = UserInfo(
    name: Option<string>,
    email: string,
    socialAccounts: Option<map<string, SocialAccount>>)

  /** `userInfo?.socialAccounts || {}` */
  function AccountsOf(u: Option<UserInfo>): map<string, SocialAccount> {
    if u.Some? && u.value.socialAccounts.Some? then u.value.socialAccounts.value else map[]
  }
}
