/** The shapes of the remote directory's records and replies that the cache consumes. */
module Directory {
  import opened Wrappers

  /** The directory's name sub-record; each field may be null. */
  datatype UserName = UserName(givenName: Option<string>, familyName: Option<string>, fullName: Option<string>)

  /** A directory user as the list and get requests return it. */
  datatype User = User(
    primaryEmail: string,
    name: Option<UserName>,
    aliases: Option<seq<string>>,
    orgUnitPath: Option<string>)

  /** The user record `Add` sends with its insert request. The primary address is
      the account's own mail address, which the insert request is recorded with. */
  datatype NewUser = NewUser(
    name: UserName,
    password: string,
    orgUnitPath: Option<string>,
    changePasswordAtNextLogin: bool)

  /** One reply of the list request: a page of users and the token of the next page. */
  datatype Page = Page(users: seq<User>, nextPageToken: Option<string>)
}
