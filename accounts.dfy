/** The account record and its mapping from and to directory users (`ToAccount`,
    and the user record built by `Add`). */
module Accounts {
  import opened Wrappers
  import opened Addresses
  import opened Directory

  /** The organisational unit that marks a staff account. */
  const StaffUnitPath: string := "/personeel"

  datatype Account = Account(
    uid: string,
    givenName: Option<string>,
    familyName: Option<string>,
    fullName: Option<string>,
    mailAlias: string,
    isStaff: bool)

  /** The account a directory user maps to. */
  function ToAccount(user: User): (account: Account)
    // the uid is the primary address up to (not including) its first '@'
    ensures '@' !in account.uid
    ensures |account.uid| <= |user.primaryEmail| && user.primaryEmail[..|account.uid|] == account.uid
    ensures |account.uid| < |user.primaryEmail| ==> user.primaryEmail[|account.uid|] == '@'
    // the names come from the name sub-record when there is one; otherwise they, like the full
    // name (never copied) and the staff flag (only ever set to true), keep the default of a new
    // account, modelled as null and false
    ensures user.name.Some? ==>
      account.givenName == user.name.value.givenName && account.familyName == user.name.value.familyName
    ensures user.name.None? ==> account.givenName.None? && account.familyName.None?
    ensures account.fullName.None?
    // the alias is the first alias, or "" when there is none
    ensures user.aliases.Some? && |user.aliases.value| > 0 ==> account.mailAlias == user.aliases.value[0]
    ensures user.aliases.None? || |user.aliases.value| == 0 ==> account.mailAlias == ""
    // staff exactly when the unit path is the staff unit
    ensures account.isStaff <==> user.orgUnitPath == Some(StaffUnitPath)
  {
    Account(
      uid := LocalPart(user.primaryEmail),
      givenName := if user.name.Some? then user.name.value.givenName else None,
      familyName := if user.name.Some? then user.name.value.familyName else None,
      fullName := None,
      mailAlias := if user.aliases.Some? && |user.aliases.value| > 0 then user.aliases.value[0] else "",
      isStaff := user.orgUnitPath.Some? && user.orgUnitPath.value == StaffUnitPath)
  }

  /** The accounts of a page of users, in page order. */
  function ToAccounts(users: seq<User>): seq<Account>
    decreases |users|
  {
    if users == [] then [] else [ToAccount(users[0])] + ToAccounts(users[1..])
  }

  /** A page maps to one account per user, position by position. */
  lemma {:induction false} ToAccountsAt(users: seq<User>)
    ensures |ToAccounts(users)| == |users|
    ensures forall i :: 0 <= i < |users| ==> ToAccounts(users)[i] == ToAccount(users[i])
    decreases |users|
  {
    if users != [] {
      ToAccountsAt(users[1..]);
      forall i | 1 <= i < |users| ensures ToAccounts(users)[i] == ToAccount(users[i]) {
        assert users[1..][i - 1] == users[i];
      }
    }
  }

  /** The user record `Add` sends for `account`. */
  function NewUserFor(account: Account, password: string): (user: NewUser)
    ensures user.name == UserName(account.givenName, account.familyName, account.fullName)
    ensures user.password == password && !user.changePasswordAtNextLogin
    ensures user.orgUnitPath.Some? <==> account.isStaff
    ensures user.orgUnitPath.Some? ==> user.orgUnitPath.value == StaffUnitPath
  {
    NewUser(
      UserName(account.givenName, account.familyName, account.fullName),
      password,
      if account.isStaff then Some(StaffUnitPath) else None,
      false)
  }

  /** A user created from `account` maps back to an account with the same staff
      flag and the same given and family names. */
  lemma CreatedUserMapsBack(account: Account, password: string, primaryEmail: string, aliases: Option<seq<string>>)
    ensures var sent := NewUserFor(account, password);
      var back := ToAccount(User(primaryEmail, Some(sent.name), aliases, sent.orgUnitPath));
      back.isStaff == account.isStaff && back.givenName == account.givenName && back.familyName == account.familyName
  {
  }
}
