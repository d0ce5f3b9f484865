# Account cache of the directory back end

This project models the account cache of the `GoogleApi` back end in Dafny and proves
properties about it. The back end keeps one static, nullable dictionary `allUsers` that maps
a key to an `Account`. The operations:

- **ClearAll** drops the cache.
- **ReloadAll** clears the cache and loads it again.
- **LoadAll** is the bulk load. It fills the cache from the directory's paged user list and
  follows next-page tokens until there are none.
- **Load** looks one address up. It reads from the cache when there is one, and asks the
  directory otherwise.
- **Add**, **Delete** and **ChangePassword** send a request to the directory and change the
  cache only after that request succeeds.
- **ToAccount** maps a directory user to an account.
- **ToJson** and **FromJson** write and read a snapshot of the cache.

## How the model is built

- **Modules.** They follow the source's concerns:
  - `Addresses`: the local part of an address and its lower-cased cache key.
  - `Directory`: the directory's records.
  - `Accounts`: the account record, `ToAccount`, and the user record `Add` sends.
  - `Cache`: filling a dictionary one `Dictionary.Add` at a time.
  - `BulkLoad`: the specification of the paged load.
  - `Snapshot`: the snapshot document and its round trip.
  - `GoogleApi`: the cache itself.
- **The cache.** `GoogleApi.AccountManager` is a class with the field
  `allUsers: Option<map<string, Account>>`. `None` stands for null and is kept apart from an
  empty map.
- **Logs.** Two ghost logs live beside the cache:
  - `calls` records every remote request, so "no request is sent" can be stated.
  - `reports` records every message left in the error sink, without its text.
- **Remote results are inputs.**
  - `LoadAll` takes the list replies in order (`None` where a request fails).
  - `Load` takes the get reply.
  - `Add` takes the outcomes of the user-insert and alias-insert requests.
  - `Delete` and `ChangePassword` each take the outcome of their one request.
- **Exceptions.** An exception that escapes an operation is an explicit `Threw` outcome:
  - a duplicate key in `Add` or `FromJson`;
  - enumerating an absent dictionary in `ToJson`.
- **The bulk load.** It is imperative, like the source:
  - the first request and page (`FetchPage`, `TakePage`, `AddUsers`);
  - the `while` loop over next-page tokens (`FollowPages`).
  - Its result, the cache it leaves, the requests it sends and its report are all tied to the
    pure function `BulkLoad.Drain` over the replies. Lemmas then state what `Drain` means:
    - `DrainFills`: the cache is the verbatim-uid fill of every account received before the
      load stops.
    - `DrainRequests` and `DrainRequestsAll`: the requests are the first one plus one per
      next-page token followed.
    - `DrainKeeps`: there is no rollback.
    - `DrainOk`: success exactly when no request fails and no uid repeats.
    - `BulkLoadFromEmpty`: the load from an empty cache.

## Quirks of the code

These places of the source are easy to misread; the model follows the code:

- **Keys.**
  - The bulk load (`AccountManager.cs:54`, `:70`) and the snapshot import
    (`AccountManager.cs:293`) key an account by its verbatim uid.
  - `Load` and `Delete` use the lower-cased local part of the address
    (`AccountManager.cs:99`, `:236`), and `Add` uses the lower-cased uid
    (`AccountManager.cs:210`).
  - `GoogleApi.VerbatimUidMissed` and `GoogleApi.MixedCaseExample` show the result: an
    account loaded with a uid that is not lower-case is not found by a lookup of its own
    address. `GoogleApi.VerbatimUidFound` shows that a lower-case uid is found.
- **Which cache counts.** `Load` answers from the cache whenever one is there, even an empty
  one (`AccountManager.cs:97`). `LoadAll` and `Add` test for a non-empty cache
  (`AccountManager.cs:36`, `:208`).
- **Loading twice.** A second `LoadAll` sends no request only when the first one left a
  non-empty cache (`GoogleApi.AccountManager.LoadAllTwice`). After a load that failed on its
  first request, or that found no users, the second load sends requests again.
- **Aliases.** `Add` always sends the alias request, even for an empty alias
  (`AccountManager.cs:187-206`).
- **Duplicates.** A duplicate uid inside the bulk load is caught and turns into `false`, and
  the entries added before it stay (`AccountManager.cs:79-83`). A duplicate key in `Add`
  escapes the operation as an exception.

## Model

| member | source | states |
|---|---|---|
| `Addresses.LocalPart` | AccountManager.cs:128 | The part of an address before its first '@' is a prefix of it and has no '@'. When it is shorter than the address, an '@' follows it. |
| `Addresses.Lower` | AccountManager.cs:99 | Lower-casing keeps the length, maps each character by ASCII lower-casing, and gives a lower-case string. |
| `Addresses.LowerOfLowerCase` | AccountManager.cs:210 | Lower-casing a string that is already lower-case changes nothing. |
| `Addresses.CacheKey` | AccountManager.cs:99 | The cache key of an address is lower-case and has no '@'. It is, character by character, the lower-cased prefix of the address that ends just before the first '@' (or at the end of the address). |
| `Addresses.CacheKeyOfAddress` | AccountManager.cs:236 | The cache key of `uid@domain` is the lower-cased uid, the key `Add` stores under. |
| `Accounts.ToAccount` | AccountManager.cs:124-150 | The uid is the primary address up to its first '@' and has no '@'. The given and family names come from the name record when there is one. Otherwise they, like the full name, are left at the `Account` default, modelled as null. The alias is the first alias, or "" when the list is null or empty. The account is staff exactly when the unit path is "/personeel"; otherwise the flag is left at the `Account` default, modelled as false. |
| `Accounts.ToAccountsAt` | AccountManager.cs:51-56 | A page maps to one account per user, position by position. |
| `Accounts.NewUserFor` | AccountManager.cs:154-169 | The user that `Add` sends carries the account's three names and the password, and does not ask for a password change. Its unit path is "/personeel" for staff, and null otherwise. |
| `Accounts.CreatedUserMapsBack` | AccountManager.cs:124-169 | A user created from an account maps back to the same staff flag and the same given and family names. |
| `Cache.InsertByUid` | AccountManager.cs:51-56 | Filling a dictionary one `Dictionary.Add` at a time adds at most one entry per account, and adds all of them when no key repeats. |
| `Cache.InsertKeeps` | AccountManager.cs:54 | A fill never changes or removes an entry that was there before. |
| `Cache.InsertOk` | AccountManager.cs:54 | A fill completes exactly when no uid is already present or repeated. |
| `Cache.InsertKeys` | AccountManager.cs:54 | A completed fill adds exactly the uids of the accounts as keys. |
| `Cache.InsertValues` | AccountManager.cs:54 | After a completed fill, every account sits under its own uid. |
| `Cache.InsertStops` | AccountManager.cs:79-83 | A fill that stops at a duplicate keeps exactly the accounts before it, and the duplicate's uid is already a key. |
| `Cache.InsertConcat` | AccountManager.cs:51-72 | Filling from two pages one after the other is filling from their concatenation. |
| `Cache.InsertSelfKeyed` | AccountManager.cs:54 | A verbatim-uid fill keeps every entry under its own uid. |
| `Cache.FreshSize` | AccountManager.cs:55 | Accounts that fill without a duplicate have as many distinct uids as there are accounts, none of them a key already present. |
| `BulkLoad.Drain` | AccountManager.cs:39-83 | The pure model of the whole request-and-fill part of the load. It carries no contract of its own; `DrainFills`, `DrainRequests`, `DrainRequestsAll`, `DrainKeeps` and `DrainOk` specify it. |
| `BulkLoad.DrainFills` | AccountManager.cs:39-83 | The bulk load leaves the verbatim-uid fill of every account received before it stops. Its count grows by the number added. It succeeds exactly when that fill completes and no request fails. |
| `BulkLoad.DrainRequests` | AccountManager.cs:59-63 | The bulk load sends the first request, then at most one request per next-page token it follows. |
| `BulkLoad.DrainRequestsAll` | AccountManager.cs:59-63 | When no uid repeats, the bulk load sends the first request and then exactly one request per next-page token. |
| `BulkLoad.DrainKeeps` | AccountManager.cs:79-83 | There is no rollback: the bulk load keeps every entry present before it, and keeps entries under their own uids. |
| `BulkLoad.DrainOk` | AccountManager.cs:77-83 | The bulk load returns true exactly when no request fails and no uid is already present or repeated. |
| `BulkLoad.BulkLoadFromEmpty` | AccountManager.cs:37-77 | Loading from an empty cache with uids that do not repeat: success exactly when no request fails. The requests are the token-less one plus one per next-page token. The count equals the number of entries and of accounts received. The keys are their uids, and each account sits under its uid. |
| `Snapshot.DecodeAll` | AccountManager.cs:289-292 | One account is read back per array element, position by position. |
| `Snapshot.ImportOrdered` | AccountManager.cs:286-294 | Importing accounts whose uids list a key set once each succeeds, and gives exactly those keys, each key holding its account. |
| `Snapshot.SnapshotRoundTrip` | AccountManager.cs:272-296 | Importing the exported array of a cache whose entries sit under their own uids succeeds. It gives the same keys, each holding the account read back, and the same dictionary when reading back is exact. |
| `Snapshot.AddKeepsSelfKeyed` | AccountManager.cs:210 | Storing under the lower-cased uid keeps every entry under its own uid exactly when the uid is lower-case. |
| `GoogleApi.StoredIsFound` | AccountManager.cs:208-211 | An account that `Add` caches is found by a lookup of `uid@domain`. |
| `GoogleApi.StoreThenRemove` | AccountManager.cs:232-239 | Deleting the address of an account that `Add` just cached gives back the cache as it was. |
| `GoogleApi.RemovedExactly` | AccountManager.cs:232-240 | A successful delete removes exactly the key of the address. Every other entry stays unchanged, and the address is no longer found. |
| `GoogleApi.VerbatimUidMissed` | AccountManager.cs:97-104 | An account stored under a verbatim uid that is not lower-case is not found by a lookup of its own address. |
| `GoogleApi.VerbatimUidFound` | AccountManager.cs:97-104 | An account stored under a verbatim uid that is lower-case is found by a lookup of its own address. |
| `GoogleApi.MixedCaseExample` | AccountManager.cs:54 | The uid "Alice", stored as the bulk load stores it, is missed by a lookup of "Alice@example.org". |
| `GoogleApi.Lookup` | AccountManager.cs:97-104 | The answer of a cache lookup. It carries no contract of its own; `StoredIsFound`, `RemovedExactly`, `VerbatimUidMissed` and `VerbatimUidFound` specify it, and `Load` returns it. |
| `GoogleApi.Stored` | AccountManager.cs:208-211 | The result and the new cache when both requests of `Add` succeed. It carries no contract of its own; `StoredIsFound` and `StoreThenRemove` specify it, and `Add` ends with it. |
| `GoogleApi.Removed` | AccountManager.cs:232-239 | The cache after a successful delete. It carries no contract of its own; `RemovedExactly` and `StoreThenRemove` specify it, and `Delete` ends with it. |
| `GoogleApi.AccountManager.All` | AccountManager.cs:17 | The getter returns the cache itself, null included. It carries no contract of its own. |
| `GoogleApi.AccountManager.constructor` | AccountManager.cs:16 | The cache starts out absent, and no request or message has been recorded. |
| `GoogleApi.AccountManager.ClearAll` | AccountManager.cs:19-26 | Afterwards the cache is absent, whatever it was, and nothing is sent or reported. |
| `GoogleApi.AccountManager.ClearAllTwice` | AccountManager.cs:19-26 | Clearing twice leaves the same state as clearing once. |
| `GoogleApi.AccountManager.ReloadAll` | AccountManager.cs:28-32 | The result is the bulk load from an absent cache, and the first request sent is the token-less list request. |
| `GoogleApi.AccountManager.LoadAll` | AccountManager.cs:34-87 | A cache that is there and not empty is kept: the result is true, and nothing is sent or reported. Otherwise the result, the cache, the list requests and the final message are those of `Drain` from an empty dictionary. |
| `GoogleApi.AccountManager.LoadAllTwice` | AccountManager.cs:36-37 | Of two loads from an absent or empty cache, the second sends nothing exactly when the first left a cache that is not empty. In that case the second keeps the cache and returns true. |
| `GoogleApi.AccountManager.FillPages` | AccountManager.cs:42-84 | The request-and-fill part of the load is `Drain` from the cache it starts with. |
| `GoogleApi.AccountManager.ListPage` | AccountManager.cs:62-63 | A list request carrying the token is recorded, and its reply is the next one in the transcript. |
| `GoogleApi.AccountManager.FetchPage` | AccountManager.cs:62-73 | One request and its page are the first step of `Drain` over the remaining replies. A failure is reported as a load error. |
| `GoogleApi.AccountManager.TakePage` | AccountManager.cs:47-57 | Taking one reply is the first step of `Drain`. A failed request, or a uid already present, reports a load error and ends the load. |
| `GoogleApi.AccountManager.AddUsers` | AccountManager.cs:51-56 | The users of one page are added under their verbatim uids, as `InsertByUid` describes. The number added and whether a duplicate was met are returned. |
| `GoogleApi.AccountManager.FollowPages` | AccountManager.cs:59-77 | Following next-page tokens until there is none completes `Drain`. The requests are logged in order, and the final message is the count or the load error. |
| `GoogleApi.AccountManager.Load` | AccountManager.cs:93-122 | With a cache, even an empty one, the answer is the entry under the address's cache key or null, and nothing is sent. Without one, a get request is sent, the user is mapped by `ToAccount` (or null on failure, which is reported), and nothing is cached. |
| `GoogleApi.AccountManager.Add` | AccountManager.cs:152-213 | The user insert is always sent. On its failure the result is false, the failure is reported, no alias request is sent and the cache is unchanged. The alias request is sent otherwise; on its failure the result is false and the cache is unchanged. When both succeed and the cache is there and not empty, the account is stored under its lower-cased uid, or a duplicate key is thrown. |
| `GoogleApi.AccountManager.AddThenLoad` | AccountManager.cs:208-211 | After a successful `Add` into a non-empty cache, a lookup of the account's address finds it without a request. |
| `GoogleApi.AccountManager.AddThenDelete` | AccountManager.cs:232-240 | A successful `Add` followed by a successful `Delete` of the same address leaves the cache as it was, and the address is no longer found. |
| `GoogleApi.AccountManager.Delete` | AccountManager.cs:215-242 | The delete request is always sent and the result is its outcome. On success the key of the address is removed from a cache that is there. On failure the cache is unchanged and the failure is reported. |
| `GoogleApi.AccountManager.ChangePassword` | AccountManager.cs:244-267 | The update request is sent and the result is its outcome. The cache never changes, and only a failure is reported. |
| `GoogleApi.AccountManager.ToJson` | AccountManager.cs:272-282 | An absent cache throws. Otherwise the "accounts" array has exactly one element per cached account: the encoding of the entry under each key, in an enumeration order that lists every key once. |
| `GoogleApi.AccountManager.FromJson` | AccountManager.cs:284-296 | The cache becomes a fresh dictionary filled with the decoded accounts under their verbatim uids, and is empty when the "accounts" key is missing. A repeated uid throws, and the accounts added before it stay. |
| `GoogleApi.AccountManager.AddDecoded` | AccountManager.cs:290-294 | The loop of the import adds the decoded accounts as `InsertByUid` describes. |
| `GoogleApi.AccountManager.ExportImport` | AccountManager.cs:272-296 | Importing the exported snapshot of a cache whose entries sit under their own uids returns normally. It gives the same keys, each holding the account read back. |

## Left out

- `Connector.cs` is not part of this model. It covers credentials, the service object and the
  domain setting, all of which are I/O and library setup.
- Asynchronous execution (`Task.Run`, `await`) is not modelled. Each operation is one
  sequential step, with no interleaving.
- Remote requests are reduced to their kind, their key data and a success or failure input.
  The request objects, their wire formats and the exception kinds are not modelled.
- A request made for an account goes to the account's mail address. That address is recorded
  as the account itself, because how `Account.Mail` is derived is not shown.
- The error sink records only which failure happened, or the count of a bulk load. The message
  texts and `e.Message` are not modelled.
- `Account.ToJson` and `new Account(JObject)` are the parameters `encode` and `decode`. Their
  internals live outside the source, so no field-level round trip is claimed.
- `GoogleApi.AccountManager.ToJson`: the order in which `Dictionary.Values` enumerates is the
  ghost output `order`. Only that it lists every key once is stated.
- `Snapshot.Document` models only the "accounts" member of the snapshot object. In
  `GoogleApi.AccountManager.FromJson`, a value under "accounts" that is not an array, and an
  element that is not an object, are not modelled: `decode` is total.
- `Addresses.Lower`: ASCII lower-casing stands for the culture-aware `ToLower`.
- `GoogleApi.AccountManager.LoadAll`: a page whose user list is null (where `.Count` throws
  inside the `try`) is not modelled.
- `GoogleApi.AccountManager.LoadAll`, `GoogleApi.AccountManager.Load`: a user whose primary
  address is null is not modelled. In the source, mapping such a user throws inside the `try`:
  the load then returns false, and `Load` returns null and reports an error.
- `GoogleApi.AccountManager.LoadAll`: the replies are a finite transcript. A request made after
  the transcript has run out stands for a failed request.
- `GoogleApi.AccountManager.ClearAll`: `Dictionary.Clear` also empties the dictionary for any
  holder of the object returned by `All`. This aliasing is not modelled; the cache is a value.
- `GoogleApi.AccountManager.Add`: a null uid (where `ToLower` or `Dictionary.Add` would throw)
  is not modelled.
- `FullName` is only passed through by `Add`, into the user record it sends.
