/** The account cache of the directory back end: a nullable dictionary of accounts and the
    operations that fill, query, change and snapshot it. Each remote request is recorded in
    `calls`, and its result is an input of the operation that sends it; the messages the
    operations leave in the error sink are recorded in `reports`. */
module GoogleApi {
  import opened Wrappers
  import opened Addresses
  import opened Directory
  import opened Accounts
  import opened Cache
  import opened BulkLoad
  import opened Snapshot

  /** The remote requests the cache sends to the directory. Requests made for an account
      go to that account's mail address, which is recorded as the account itself. */
  datatype RemoteCall =
    | ListUsers(pageToken: Option<string>)
    | GetUser(address: string)
    | InsertUser(owner: Account, user: NewUser)
    | InsertAlias(owner: Account, alias: string)
    | UpdatePassword(owner: Account, password: string)
    | DeleteUser(address: string)

  /** The request whose failure an error message reports. */
  datatype Failure = LoadUsersList | LoadUser | AddUser | AddAlias | DeleteUserFailed | ChangePasswordFailed

  /** A message left in the error sink: the count of a bulk load, or a request failure. */
  datatype Report = AddedAccounts(count: nat) | Error(failure: Failure)

  /** An exception the cache lets escape to its caller. */
  datatype Exception =
    | DuplicateKey   // `Dictionary.Add` with a key that is already present
    | NullReference  // enumerating an absent dictionary

  /** The result of an operation that either returns or lets an exception escape. */
  datatype Completion<T> = Returned(value: T) | Threw(exception: Exception)

  /** The list requests for the given page tokens, in order. */
  function ListCalls(tokens: seq<Option<string>>): seq<RemoteCall>
    decreases |tokens|
  {
    if tokens == [] then [] else [ListUsers(tokens[0])] + ListCalls(tokens[1..])
  }

  /** The error-sink message that ends a bulk load. */
  function LoadReport(o: Outcome): Report
  {
    if o.ok then AddedAccounts(o.count) else Error(LoadUsersList)
  }

  class AccountManager {
    /** The cache; None stands for null. */
    var allUsers: Option<AccountMap>
    /** Every remote request sent so far, in order. */
    ghost var calls: seq<RemoteCall>
    /** Every message left in the error sink so far, in order. */
    ghost var reports: seq<Report>

    constructor()
      ensures allUsers == None && calls == [] && reports == []
    {
      allUsers := None;
      calls := [];
      reports := [];
    }

    /** The cache as its getter returns it. */
    function All(): Option<AccountMap>
      reads this
    {
      allUsers
    }

    /** Drop the cache: afterwards it is absent, whatever it was. */
    method ClearAll()
      modifies this
      ensures allUsers == None
      ensures calls == old(calls) && reports == old(reports)
    {
      if allUsers.Some? {
        allUsers := Some(map[]);
        allUsers := None;
      }
    }

    /** Send the list request carrying `token`, the `index`-th of the load; its reply is the
        `index`-th entry of the transcript, and a transcript that has run out stands for a
        request that fails. */
    method ListPage(responses: seq<Option<Page>>, index: nat, token: Option<string>) returns (reply: Option<Page>)
      modifies this
      ensures reply == (if index < |responses| then responses[index] else None)
      ensures calls == old(calls) + [ListUsers(token)]
      ensures allUsers == old(allUsers) && reports == old(reports)
    {
      calls := calls + [ListUsers(token)];
      reply := if index < |responses| then responses[index] else None;
    }

    /** Add every user of one page under its verbatim uid, stopping at the first uid that is
        already present (where `Dictionary.Add` throws); the fill is the one `InsertByUid`
        describes. */
    method AddUsers(users: seq<User>) returns (added: nat, ok: bool)
      requires allUsers.Some?
      modifies this
      ensures var r := InsertByUid(old(allUsers).value, ToAccounts(users));
        allUsers == Some(r.cache) && added == r.added && ok == r.ok
      ensures calls == old(calls) && reports == old(reports)
    {
      ghost var total := InsertByUid(allUsers.value, ToAccounts(users));
      added := 0;
      var j := 0;
      while j < |users|
        invariant 0 <= j <= |users|
        invariant allUsers.Some?
        invariant calls == old(calls) && reports == old(reports)
        invariant var s := InsertByUid(allUsers.value, ToAccounts(users[j..]));
          total == Inserted(s.cache, added + s.added, s.ok)
      {
        assert ToAccounts(users[j..]) == [ToAccount(users[j])] + ToAccounts(users[j + 1..]) by {
          assert users[j..][0] == users[j] && users[j..][1..] == users[j + 1..];
        }
        var account := ToAccount(users[j]);
        if account.uid in allUsers.value {
          return added, false;
        }
        allUsers := Some(allUsers.value[account.uid := account]);
        added := added + 1;
        j := j + 1;
      }
      assert users[j..] == [];
      ok := true;
    }

    /** Take one reply of the bulk load: a failed request is reported and ends the load;
        otherwise the page's users are added, and a uid already present is reported and
        ends the load. `token` is the token the request carried and `rest` the replies,
        as the load sees them, from this one on; the step is the first step of `Drain`. */
    method TakePage(reply: Option<Page>, count: nat, ghost token: Option<string>,
                    ghost rest: seq<Option<Batch>>) returns (ok: bool, total: nat, page: Page)
      requires allUsers.Some?
      requires (if rest == [] then None else rest[0]) == ToBatch(reply)
      modifies this
      ensures allUsers.Some? && calls == old(calls)
      ensures var d := Drain(old(allUsers).value, count, token, rest);
        if !ok then
          d == Outcome(allUsers.value, total, [token], false) && reports == old(reports) + [Error(LoadUsersList)]
        else
          && reply == Some(page)
          && reports == old(reports)
          && rest != [] && rest[0] == Some(Batch(ToAccounts(page.users), page.nextPageToken))
          && (page.nextPageToken.None? ==> d == Outcome(allUsers.value, total, [token], true))
          && (page.nextPageToken.Some? ==>
                var o := Drain(allUsers.value, total, page.nextPageToken, rest[1..]);
                d == Outcome(o.cache, o.count, [token] + o.requests, o.ok))
    {
      total := count;
      if reply.None? {
        reports := reports + [Error(LoadUsersList)];
        return false, total, Page([], None);
      }
      page := reply.value;
      ok := true;
      if |page.users| > 0 {
        var added;
        added, ok := AddUsers(page.users);
        total := total + added;
      } else {
        assert ToAccounts(page.users) == [];
      }
      if !ok {
        reports := reports + [Error(LoadUsersList)];
      }
    }

    /** Send the `index`-th list request of the bulk load, carrying `token`, and take its
        reply: the step is the first step of `Drain` over the replies from this one on. */
    method FetchPage(responses: seq<Option<Page>>, index: nat, token: Option<string>, count: nat,
                     ghost batches: seq<Option<Batch>>) returns (ok: bool, total: nat, page: Page)
      requires allUsers.Some? && batches == ToBatches(responses) && index <= |responses|
      modifies this
      ensures allUsers.Some? && calls == old(calls) + [ListUsers(token)]
      ensures var d := Drain(old(allUsers).value, count, token, batches[index..]);
        if !ok then
          d == Outcome(allUsers.value, total, [token], false) && reports == old(reports) + [Error(LoadUsersList)]
        else
          && index < |responses| && responses[index] == Some(page)
          && reports == old(reports)
          && var r := Resume(allUsers.value, total, page.nextPageToken, batches[index + 1..]);
             d == Outcome(r.cache, r.count, [token] + r.requests, r.ok)
    {
      var reply := ListPage(responses, index, token);
      if index < |responses| { ToBatchesAt(responses, index); }
      ok, total, page := TakePage(reply, count, token, batches[index..]);
      if ok {
        assert batches[index..][1..] == batches[index + 1..];
      }
    }

    /** The bulk load. A cache that is there and not empty is kept and no request is sent.
        Otherwise the cache becomes a dictionary (the one there, which is then empty, or a
        new one) filled from the pages of the directory's user list, following each page's
        next-page token; `responses` holds the replies, None where a request failed. The
        load ends as `Drain` describes, from an empty dictionary: its result, the cache it
        leaves, the list requests it sends and the message it reports. */
    method LoadAll(responses: seq<Option<Page>>) returns (ok: bool)
      modifies this
      ensures old(allUsers).Some? && |old(allUsers).value| > 0 ==>
        ok && allUsers == old(allUsers) && calls == old(calls) && reports == old(reports)
      ensures old(allUsers).None? || |old(allUsers).value| == 0 ==>
        var o := Drain(map[], 0, None, ToBatches(responses));
        && ok == o.ok
        && allUsers == Some(o.cache)
        && calls == old(calls) + ListCalls(o.requests)
        && reports == old(reports) + [LoadReport(o)]
    {
      if allUsers.Some? && |allUsers.value| > 0 {
        return true;
      }
      if allUsers.None? {
        allUsers := Some(map[]);
      }
      assert allUsers.value == map[];
      ok := FillPages(responses);
    }

    /** The request-and-fill part of the bulk load, inside its `try`: the first request
        and its page, then `FollowPages`; any failure is caught, reported and turned into
        false. */
    method FillPages(responses: seq<Option<Page>>) returns (ok: bool)
      requires allUsers.Some?
      modifies this
      ensures var o := Drain(old(allUsers).value, 0, None, ToBatches(responses));
        && ok == o.ok
        && allUsers == Some(o.cache)
        && calls == old(calls) + ListCalls(o.requests)
        && reports == old(reports) + [LoadReport(o)]
    {
      ghost var batches := ToBatches(responses);
      assert batches[0..] == batches;
      var count, users;
      ok, count, users := FetchPage(responses, 0, None, 0, batches);
      if ok {
        ghost var between := calls;
        ok := FollowPages(responses, 0, users, count, batches);
        ghost var r := Resume(old(allUsers).value, 0, users.nextPageToken, batches[1..]);
        ListCallsConcat([None], r.requests);
      }
    }

    /** The `while` loop of the bulk load: as long as the last page has a next-page token,
        request the page it names and add its users. `index` is the position of the last
        page among the replies. */
    method FollowPages(responses: seq<Option<Page>>, index: nat, page: Page, count: nat,
                       ghost batches: seq<Option<Batch>>) returns (ok: bool)
      requires allUsers.Some? && batches == ToBatches(responses) && index < |responses|
      modifies this
      ensures var r := Resume(old(allUsers).value, count, page.nextPageToken, batches[index + 1..]);
        && ok == r.ok
        && allUsers == Some(r.cache)
        && calls == old(calls) + ListCalls(r.requests)
        && reports == old(reports) + [LoadReport(r)]
    {
      ghost var full := Resume(allUsers.value, count, page.nextPageToken, batches[index + 1..]);
      var users := page;
      var total := count;
      var last := index;
      while users.nextPageToken.Some?
        invariant allUsers.Some?
        invariant reports == old(reports)
        invariant last < |responses|
        invariant var r := Resume(allUsers.value, total, users.nextPageToken, batches[last + 1..]);
          && full.cache == r.cache && full.count == r.count && full.ok == r.ok
          && old(calls) + ListCalls(full.requests) == calls + ListCalls(r.requests)
        decreases |responses| - last
      {
        var token := users.nextPageToken;
        ghost var log := calls;
        last := last + 1;
        ok, total, users := FetchPage(responses, last, token, total, batches);
        if !ok {
          ListCallsCons(log, token, []);
          return;
        }
        ghost var r := Resume(allUsers.value, total, users.nextPageToken, batches[last + 1..]);
        ListCallsCons(log, token, r.requests);
      }
      reports := reports + [AddedAccounts(total)];
      return true;
    }

    /** Drop the cache and load it again: the bulk load always starts from an absent
        cache, so it always sends the first list request, without a page token. */
    method ReloadAll(responses: seq<Option<Page>>) returns (ok: bool)
      modifies this
      ensures var o := Drain(map[], 0, None, ToBatches(responses));
        && ok == o.ok
        && allUsers == Some(o.cache)
        && calls == old(calls) + ListCalls(o.requests)
        && reports == old(reports) + [LoadReport(o)]
      ensures |calls| > |old(calls)| && calls[|old(calls)|] == ListUsers(None)
    {
      ClearAll();
      ok := LoadAll(responses);
      ghost var o := Drain(map[], 0, None, ToBatches(responses));
      DrainRequests(map[], 0, None, ToBatches(responses));
      ListCallsConcat([None], o.requests[1..]);
      assert o.requests == [None] + o.requests[1..];
    }

    /** Look an address up. With a cache (even an empty one) the answer is the entry under
        the address's cache key, or null, and nothing is sent; without one the user is
        fetched, `reply` being the directory's answer (None where the request fails), and
        the account it maps to is returned but not cached. */
    method Load(mailAddress: string, reply: Option<User>) returns (account: Option<Account>)
      modifies this
      ensures allUsers == old(allUsers)
      ensures old(allUsers).Some? ==>
        && account == Lookup(old(allUsers).value, mailAddress)
        && calls == old(calls) && reports == old(reports)
      ensures old(allUsers).None? ==>
        && calls == old(calls) + [GetUser(mailAddress)]
        && (reply.Some? ==> account == Some(ToAccount(reply.value)) && reports == old(reports))
        && (reply.None? ==> account.None? && reports == old(reports) + [Error(LoadUser)])
    {
      if allUsers.Some? {
        var key := CacheKey(mailAddress);
        if key in allUsers.value {
          return Some(allUsers.value[key]);
        }
        return None;
      }
      calls := calls + [GetUser(mailAddress)];
      if reply.None? {
        reports := reports + [Error(LoadUser)];
        return None;
      }
      return Some(ToAccount(reply.value));
    }

    /** Create `account` remotely, then its alias (even an empty one); `created` and
        `aliased` are the outcomes of the two requests. Only when both succeed and the
        cache is there and not empty is the account cached, under its lower-cased uid; a
        key already present there makes `Dictionary.Add` throw out of the operation. */
    method Add(account: Account, password: string, created: bool, aliased: bool) returns (r: Completion<bool>)
      modifies this
      ensures !created ==>
        && r == Returned(false) && allUsers == old(allUsers)
        && calls == old(calls) + [InsertUser(account, NewUserFor(account, password))]
        && reports == old(reports) + [Error(AddUser)]
      ensures created ==>
        calls == old(calls) + [InsertUser(account, NewUserFor(account, password)), InsertAlias(account, account.mailAlias)]
      ensures created && !aliased ==>
        r == Returned(false) && allUsers == old(allUsers) && reports == old(reports) + [Error(AddAlias)]
      ensures created && aliased ==> reports == old(reports) && r == Stored(old(allUsers), account).0
      ensures created && aliased ==> allUsers == Stored(old(allUsers), account).1
    {
      calls := calls + [InsertUser(account, NewUserFor(account, password))];
      if !created {
        reports := reports + [Error(AddUser)];
        return Returned(false);
      }
      calls := calls + [InsertAlias(account, account.mailAlias)];
      if !aliased {
        reports := reports + [Error(AddAlias)];
        return Returned(false);
      }
      if allUsers.Some? && |allUsers.value| > 0 {
        var key := Lower(account.uid);
        if key in allUsers.value {
          return Threw(DuplicateKey);
        }
        allUsers := Some(allUsers.value[key := account]);
      }
      return Returned(true);
    }

    /** Delete the user at `mailAddress` remotely; `deleted` is the outcome of the
        request. Only on success, and when there is a cache, is the entry under the
        address's cache key removed. */
    method Delete(mailAddress: string, deleted: bool) returns (ok: bool)
      modifies this
      ensures ok == deleted
      ensures calls == old(calls) + [DeleteUser(mailAddress)]
      ensures deleted ==> reports == old(reports) && allUsers == Removed(old(allUsers), mailAddress)
      ensures !deleted ==> reports == old(reports) + [Error(DeleteUserFailed)] && allUsers == old(allUsers)
    {
      calls := calls + [DeleteUser(mailAddress)];
      if !deleted {
        reports := reports + [Error(DeleteUserFailed)];
        return false;
      }
      if allUsers.Some? {
        var key := CacheKey(mailAddress);
        if key in allUsers.value {
          allUsers := Some(allUsers.value - {key});
        } else {
          assert allUsers.value - {key} == allUsers.value;
        }
      }
      return true;
    }

    /** Send a new password for `account`; `updated` is the outcome of the request. The
        cache is never touched. */
    method ChangePassword(account: Account, password: string, updated: bool) returns (ok: bool)
      modifies this
      ensures ok == updated && allUsers == old(allUsers)
      ensures calls == old(calls) + [UpdatePassword(account, password)]
      ensures reports == old(reports) + (if updated then [] else [Error(ChangePasswordFailed)])
    {
      calls := calls + [UpdatePassword(account, password)];
      if !updated {
        reports := reports + [Error(ChangePasswordFailed)];
      }
      return updated;
    }

    /** Write the snapshot: one element per cached account, the encoding of that account,
        in the order in which the dictionary is enumerated, which is returned as `order`.
        An absent cache makes the enumeration throw. */
    method ToJson<J>(encode: Account -> J) returns (r: Completion<Document<J>>, ghost order: seq<string>)
      ensures allUsers.None? <==> r == Threw(NullReference)
      ensures allUsers.Some? ==>
        && r.Returned? && r.value.accounts.Some?
        && |r.value.accounts.value| == |allUsers.value|
        && IsOrdering(order, allUsers.value.Keys)
        && WrittenAs(r.value.accounts.value, allUsers.value, order, encode)
    {
      order := [];
      if allUsers.None? {
        return Threw(NullReference), order;
      }
      var m := allUsers.value;
      var items: seq<J> := [];
      var keys := m.Keys;
      while keys != {}
        invariant keys <= m.Keys
        invariant |items| == |order| && |keys| + |order| == |m|
        invariant forall i :: 0 <= i < |order| ==> order[i] in m && order[i] !in keys && items[i] == encode(m[order[i]])
        invariant forall k :: k in m ==> k in keys || k in order
        invariant forall i, j :: 0 <= i < j < |order| ==> order[i] != order[j]
        decreases |keys|
      {
        var k :| k in keys;
        items := items + [encode(m[k])];
        order := order + [k];
        keys := keys - {k};
      }
      return Returned(Document(Some(items))), order;
    }

    /** Read a snapshot: the cache becomes a new dictionary holding every decoded account
        under its verbatim uid, in array order, or an empty one when the "accounts" key is
        missing. A uid that is already present makes `Dictionary.Add` throw, and the
        dictionary keeps the accounts added before it. */
    method FromJson<J>(doc: Document<J>, decode: J -> Account) returns (r: Completion<()>)
      modifies this
      ensures var i := InsertByUid(map[], Decoded(doc, decode));
        && allUsers == Some(i.cache)
        && r == (if i.ok then Returned(()) else Threw(DuplicateKey))
      ensures calls == old(calls) && reports == old(reports)
    {
      allUsers := Some(map[]);
      if doc.accounts.None? {
        return Returned(());
      }
      var ok := AddDecoded(doc.accounts.value, decode);
      return if ok then Returned(()) else Threw(DuplicateKey);
    }

    /** The loop of `FromJson`: add each decoded element under its verbatim uid, stopping
        at the first uid already present; the fill is the one `InsertByUid` describes. */
    method AddDecoded<J>(items: seq<J>, decode: J -> Account) returns (ok: bool)
      requires allUsers.Some?
      modifies this
      ensures var r := InsertByUid(old(allUsers).value, DecodeAll(items, decode));
        allUsers == Some(r.cache) && ok == r.ok
      ensures calls == old(calls) && reports == old(reports)
    {
      ghost var total := InsertByUid(allUsers.value, DecodeAll(items, decode));
      var j := 0;
      while j < |items|
        invariant 0 <= j <= |items|
        invariant allUsers.Some?
        invariant calls == old(calls) && reports == old(reports)
        invariant var s := InsertByUid(allUsers.value, DecodeAll(items[j..], decode));
          total.cache == s.cache && total.ok == s.ok
      {
        assert DecodeAll(items[j..], decode) == [decode(items[j])] + DecodeAll(items[j + 1..], decode) by {
          assert items[j..][0] == items[j] && items[j..][1..] == items[j + 1..];
        }
        var account := decode(items[j]);
        if account.uid in allUsers.value {
          return false;
        }
        allUsers := Some(allUsers.value[account.uid := account]);
        j := j + 1;
      }
      assert items[j..] == [];
      ok := true;
    }

    /** Clearing twice leaves the same state as clearing once. */
    method ClearAllTwice()
      modifies this
      ensures allUsers == None
      ensures calls == old(calls) && reports == old(reports)
    {
      ClearAll();
      ClearAll();
    }

    /** Two bulk loads from an absent or empty cache: the second sends no request exactly
        when the first left a cache that is not empty, and then keeps it as it is. */
    method LoadAllTwice(first: seq<Option<Page>>, second: seq<Option<Page>>) returns (ok1: bool, ok2: bool)
      requires allUsers.None? || |allUsers.value| == 0
      modifies this
      ensures var o := Drain(map[], 0, None, ToBatches(first));
        && ok1 == o.ok
        && (calls == old(calls) + ListCalls(o.requests) <==> |o.cache| > 0)
        && (|o.cache| > 0 ==> ok2 && allUsers == Some(o.cache))
    {
      ok1 := LoadAll(first);
      ghost var between := calls;
      ok2 := LoadAll(second);
      ghost var o2 := Drain(map[], 0, None, ToBatches(second));
      if calls != between {
        DrainRequests(map[], 0, None, ToBatches(second));
        ListCallsLength(o2.requests);
        assert |calls| > |between|;
      }
    }

    /** Add then look up: once both requests succeed on a cache that is there, not empty
        and without the account's key, a lookup of `uid@domain` finds the account without
        sending a request. */
    method AddThenLoad(account: Account, password: string, domain: string) returns (found: Option<Account>)
      requires '@' !in account.uid
      requires allUsers.Some? && |allUsers.value| > 0 && Lower(account.uid) !in allUsers.value
      modifies this
      ensures found == Some(account)
      ensures calls == old(calls) + [InsertUser(account, NewUserFor(account, password)), InsertAlias(account, account.mailAlias)]
    {
      ghost var m := allUsers.value;
      var r := Add(account, password, true, true);
      StoredIsFound(m, account, domain);
      found := Load(account.uid + "@" + domain, None);
    }

    /** Add then delete the same account, both succeeding, on a cache that is there, not
        empty and without the account's key: the cache is as it was before, and a lookup of
        the account's address finds nothing. */
    method AddThenDelete(account: Account, password: string, domain: string) returns (found: Option<Account>)
      requires '@' !in account.uid
      requires allUsers.Some? && |allUsers.value| > 0 && Lower(account.uid) !in allUsers.value
      modifies this
      ensures allUsers == old(allUsers) && found.None?
    {
      ghost var m := allUsers.value;
      var r := Add(account, password, true, true);
      StoreThenRemove(m, account, domain);
      var ok := Delete(account.uid + "@" + domain, true);
      RemovedExactly(Stored(Some(m), account).1.value, account.uid + "@" + domain);
      found := Load(account.uid + "@" + domain, None);
    }

    /** Export then import: the snapshot of a cache whose entries sit under their own uids
        reads back without an exception into a dictionary with the same keys, each holding
        the read-back account. */
    method ExportImport<J>(encode: Account -> J, decode: J -> Account) returns (r: Completion<()>)
      requires allUsers.Some? && SelfKeyed(allUsers.value)
      requires forall k :: k in allUsers.value ==> decode(encode(allUsers.value[k])).uid == allUsers.value[k].uid
      modifies this
      ensures r == Returned(()) && allUsers.Some?
      ensures allUsers.value.Keys == old(allUsers).value.Keys
      ensures forall k :: k in allUsers.value ==> allUsers.value[k] == decode(encode(old(allUsers).value[k]))
      ensures calls == old(calls) && reports == old(reports)
    {
      ghost var m := allUsers.value;
      var doc, order := ToJson(encode);
      SnapshotRoundTrip(m, order, doc.value.accounts.value, encode, decode);
      r := FromJson(doc.value, decode);
    }
  }

  /** The answer of a cache lookup: the entry under the address's cache key, if any. */
  function Lookup(m: AccountMap, mailAddress: string): Option<Account>
  {
    if CacheKey(mailAddress) in m then Some(m[CacheKey(mailAddress)]) else None
  }

  /** What caching `account` after both requests of `Add` succeeded yields: the result and
      the new cache. */
  function Stored(cache: Option<AccountMap>, account: Account): (Completion<bool>, Option<AccountMap>)
  {
    if cache.None? || |cache.value| == 0 then (Returned(true), cache)
    else if Lower(account.uid) in cache.value then (Threw(DuplicateKey), cache)
    else (Returned(true), Some(cache.value[Lower(account.uid) := account]))
  }

  /** The cache after a successful remote delete of `mailAddress`. */
  function Removed(cache: Option<AccountMap>, mailAddress: string): Option<AccountMap>
  {
    if cache.None? then None else Some(cache.value - {CacheKey(mailAddress)})
  }

  /** A list request followed by the requests for `rest`. */
  lemma ListCallsCons(log: seq<RemoteCall>, token: Option<string>, rest: seq<Option<string>>)
    ensures log + ListCalls([token] + rest) == log + [ListUsers(token)] + ListCalls(rest)
  {
    assert ([token] + rest)[0] == token && ([token] + rest)[1..] == rest;
  }

  /** The list requests for a concatenation of tokens. */
  lemma {:induction false} ListCallsConcat(a: seq<Option<string>>, b: seq<Option<string>>)
    ensures ListCalls(a + b) == ListCalls(a) + ListCalls(b)
    decreases |a|
  {
    if a == [] {
      assert a + b == b;
    } else {
      assert (a + b)[0] == a[0] && (a + b)[1..] == a[1..] + b;
      ListCallsConcat(a[1..], b);
    }
  }

  /** An account cached by `Add` is what a lookup of its address `uid@domain` finds. */
  lemma StoredIsFound(m: AccountMap, account: Account, domain: string)
    requires '@' !in account.uid && |m| > 0 && Lower(account.uid) !in m
    ensures Stored(Some(m), account).0 == Returned(true)
    ensures Lookup(Stored(Some(m), account).1.value, account.uid + "@" + domain) == Some(account)
  {
    CacheKeyOfAddress(account.uid, domain);
  }

  /** Deleting the address of an account that `Add` has just cached gives back the cache
      as it was before. */
  lemma StoreThenRemove(m: AccountMap, account: Account, domain: string)
    requires '@' !in account.uid && |m| > 0 && Lower(account.uid) !in m
    ensures Removed(Stored(Some(m), account).1, account.uid + "@" + domain) == Some(m)
  {
    CacheKeyOfAddress(account.uid, domain);
    assert m[Lower(account.uid) := account] - {Lower(account.uid)} == m;
  }

  /** A successful delete removes exactly the entry under the address's cache key, so a
      lookup of that address finds nothing afterwards, and every other entry stays. */
  lemma RemovedExactly(m: AccountMap, mailAddress: string)
    ensures var m' := Removed(Some(m), mailAddress).value;
      && Lookup(m', mailAddress).None?
      && m'.Keys == m.Keys - {CacheKey(mailAddress)}
      && forall k :: k in m' ==> m'[k] == m[k]
  {
  }

  /** The bulk load and the snapshot import key an account by its verbatim uid, a lookup by
      the lower-cased local part: an account whose uid is not lower-case is not found by
      its own address. */
  lemma VerbatimUidMissed(account: Account, domain: string)
    requires '@' !in account.uid && Lower(account.uid) != account.uid
    ensures Lookup(map[account.uid := account], account.uid + "@" + domain).None?
  {
    CacheKeyOfAddress(account.uid, domain);
  }

  /** An account stored under a lower-case uid, as the bulk load stores it, is found by a
      lookup of its own address. */
  lemma VerbatimUidFound(account: Account, domain: string)
    requires '@' !in account.uid && IsLowerCase(account.uid)
    ensures Lookup(map[account.uid := account], account.uid + "@" + domain) == Some(account)
  {
    CacheKeyOfAddress(account.uid, domain);
    LowerOfLowerCase(account.uid);
  }

  /** An instance: the uid "Alice", as a bulk load stores it, is missed by a lookup of
      "Alice@example.org". */
  lemma MixedCaseExample(account: Account)
    requires account.uid == "Alice"
    ensures Lookup(map[account.uid := account], "Alice@example.org").None?
  {
    assert Lower(account.uid)[0] == 'a';
    VerbatimUidMissed(account, "example.org");
    assert account.uid + "@" + "example.org" == "Alice@example.org";
  }

  /** A list log holds one request per token. */
  lemma {:induction false} ListCallsLength(tokens: seq<Option<string>>)
    ensures |ListCalls(tokens)| == |tokens|
    ensures forall i :: 0 <= i < |tokens| ==> ListCalls(tokens)[i] == ListUsers(tokens[i])
    decreases |tokens|
  {
    if tokens != [] {
      ListCallsLength(tokens[1..]);
      forall i | 1 <= i < |tokens| ensures ListCalls(tokens)[i] == ListUsers(tokens[i]) {
        assert tokens[1..][i - 1] == tokens[i];
      }
    }
  }
}
