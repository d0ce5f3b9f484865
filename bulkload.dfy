/** The page-draining bulk load: the first list request carries no page token, each
    further request carries the previous reply's next-page token, and the load stops at
    the first reply without one. Every user of every page is added under its verbatim
    uid; a failed request or a uid already present ends the load, and what was added
    before stays. */
module BulkLoad {
  import opened Wrappers
  import opened Directory
  import opened Accounts
  import opened Cache

  /** One reply of the directory with its users already mapped to accounts. */
  datatype Batch = Batch(accounts: seq<Account>, nextPageToken: Option<string>)

  /** A reply as the load sees it: None where the request failed. */
  function ToBatch(reply: Option<Page>): Option<Batch>
  {
    if reply.None? then None else Some(Batch(ToAccounts(reply.value.users), reply.value.nextPageToken))
  }

  /** The replies to successive list requests, as the load sees them. */
  function ToBatches(replies: seq<Option<Page>>): (batches: seq<Option<Batch>>)
    ensures |batches| == |replies|
    decreases |replies|
  {
    if replies == [] then [] else [ToBatch(replies[0])] + ToBatches(replies[1..])
  }

  /** Each reply is seen as its own batch. */
  lemma {:induction false} ToBatchesAt(replies: seq<Option<Page>>, i: nat)
    requires i < |replies|
    ensures ToBatches(replies)[i] == ToBatch(replies[i])
    decreases i
  {
    if i > 0 {
      ToBatchesAt(replies[1..], i - 1);
    }
  }

  /** A reply after which no further request is sent: the request failed, or the page
      has no next-page token. */
  predicate Stops(b: Option<Batch>)
  {
    b.None? || b.value.nextPageToken.None?
  }

  /** The accounts of every page the load receives, in order: the total of all page sizes.
      A transcript that runs out stands for a request that fails. */
  function Received(batches: seq<Option<Batch>>): seq<Account>
    decreases |batches|
  {
    if batches == [] || batches[0].None? then []
    else batches[0].value.accounts + if Stops(batches[0]) then [] else Received(batches[1..])
  }

  /** The next-page tokens the load follows, in order. */
  function Followed(batches: seq<Option<Batch>>): seq<Option<string>>
    decreases |batches|
  {
    if batches == [] || Stops(batches[0]) then []
    else [batches[0].value.nextPageToken] + Followed(batches[1..])
  }

  /** The reply the load stops at is a failed request. */
  predicate Failed(batches: seq<Option<Batch>>)
    decreases |batches|
  {
    batches == [] || batches[0].None? || (!Stops(batches[0]) && Failed(batches[1..]))
  }

  /** The state a bulk load ends in: the dictionary, the number of accounts it added so far,
      the page tokens of the list requests it sent from here on, and its result. */
  datatype Outcome = Outcome(cache: AccountMap, count: nat, requests: seq<Option<string>>, ok: bool)

  /** The load from the request carrying `token` on, with `batches` the replies to it and
      to the requests after it; `m` and `count` are what the load has so far. */
  function Drain(m: AccountMap, count: nat, token: Option<string>, batches: seq<Option<Batch>>): Outcome
    decreases |batches|
  {
    if batches == [] || batches[0].None? then Outcome(m, count, [token], false)
    else
      var batch := batches[0].value;
      var inserted := InsertByUid(m, batch.accounts);
      if !inserted.ok then Outcome(inserted.cache, count + inserted.added, [token], false)
      else if batch.nextPageToken.None? then Outcome(inserted.cache, count + inserted.added, [token], true)
      else
        var o := Drain(inserted.cache, count + inserted.added, batch.nextPageToken, batches[1..]);
        Outcome(o.cache, o.count, [token] + o.requests, o.ok)
  }

  /** Page by page, the load fills the dictionary exactly as one fill with every received
      account would: the same dictionary and count, and success exactly when that fill runs
      to the end and the load stops at a page without a next-page token. */
  lemma {:induction false} DrainFills(m: AccountMap, count: nat,
                                      token: Option<string>, batches: seq<Option<Batch>>)
    ensures var o := Drain(m, count, token, batches);
      var r := InsertByUid(m, Received(batches));
      && o.cache == r.cache
      && o.count == count + r.added
      && (o.ok <==> r.ok && !Failed(batches))
    decreases |batches|
  {
    if batches != [] && batches[0].Some? {
      var batch := batches[0].value;
      if Stops(batches[0]) {
        assert Received(batches) == batch.accounts + [];
        assert Received(batches) == batch.accounts;
      } else {
        var rest := batches[1..];
        assert Received(batches) == batch.accounts + Received(rest);
        InsertConcat(m, batch.accounts, Received(rest));
        var inserted := InsertByUid(m, batch.accounts);
        if inserted.ok {
          DrainFills(inserted.cache, count + inserted.added, batch.nextPageToken, rest);
        }
      }
    }
  }

  /** The load only ever asks for the first page and the tokens it follows, in order. */
  lemma {:induction false} DrainRequests(m: AccountMap, count: nat,
                                         token: Option<string>, batches: seq<Option<Batch>>)
    ensures [token] <= Drain(m, count, token, batches).requests <= [token] + Followed(batches)
    decreases |batches|
  {
    if batches != [] && batches[0].Some? && !Stops(batches[0]) {
      var batch := batches[0].value;
      var inserted := InsertByUid(m, batch.accounts);
      if inserted.ok {
        DrainRequests(inserted.cache, count + inserted.added, batch.nextPageToken, batches[1..]);
      }
    }
  }

  /** When every received account is added, the load asks for the first page and then for
      every token it follows. */
  lemma {:induction false} DrainRequestsAll(m: AccountMap, count: nat,
                                            token: Option<string>, batches: seq<Option<Batch>>)
    requires InsertByUid(m, Received(batches)).ok
    ensures Drain(m, count, token, batches).requests == [token] + Followed(batches)
    decreases |batches|
  {
    if batches == [] || batches[0].None? {
      assert Followed(batches) == [];
    } else {
      var batch := batches[0].value;
      if !Stops(batches[0]) {
        var rest := batches[1..];
        assert Received(batches) == batch.accounts + Received(rest);
        InsertConcat(m, batch.accounts, Received(rest));
        var inserted := InsertByUid(m, batch.accounts);
        DrainRequestsAll(inserted.cache, count + inserted.added, batch.nextPageToken, rest);
      }
    }
  }

  /** The rest of a load after a page whose next-page token is `next`: nothing more when
      there is none, and otherwise the load from the request carrying it. */
  function Resume(m: AccountMap, count: nat, next: Option<string>, batches: seq<Option<Batch>>): Outcome
  {
    if next.None? then Outcome(m, count, [], true) else Drain(m, count, next, batches)
  }

  /** No rollback: whatever the replies, every entry present when the load started is still
      there, unchanged, when it ends, and every entry is still under its own uid. */
  lemma DrainKeeps(m: AccountMap, count: nat,
                   token: Option<string>, batches: seq<Option<Batch>>)
    ensures var o := Drain(m, count, token, batches);
      Extends(m, o.cache) && (SelfKeyed(m) ==> SelfKeyed(o.cache))
  {
    DrainFills(m, count, token, batches);
    InsertKeeps(m, Received(batches));
    if SelfKeyed(m) { InsertSelfKeyed(m, Received(batches)); }
  }

  /** The load succeeds exactly when it stops at a page without a next-page token and every
      received uid is fresh. */
  lemma DrainOk(m: AccountMap, count: nat,
                token: Option<string>, batches: seq<Option<Batch>>)
    ensures Drain(m, count, token, batches).ok <==> !Failed(batches) && Fresh(m.Keys, Received(batches))
  {
    DrainFills(m, count, token, batches);
    InsertOk(m, Received(batches));
  }

  /** The bulk load from an absent or empty cache: the first request carries no token and
      each further request one followed token; the cache holds every received account under
      its own uid and nothing else; the count is both the number of received accounts (the
      total of all page sizes) and the size of the cache; the result is true unless a request
      failed. */
  lemma BulkLoadFromEmpty(batches: seq<Option<Batch>>)
    requires Fresh({}, Received(batches))
    ensures var o := Drain(map[], 0, None, batches);
      var received := Received(batches);
      && o.ok == !Failed(batches)
      && o.requests == [None] + Followed(batches)
      && o.count == |received| == |o.cache|
      && o.cache.Keys == UidSet(received)
      && (forall a :: a in received ==> a.uid in o.cache && o.cache[a.uid] == a)
      && SelfKeyed(o.cache)
  {
    var m: AccountMap := map[];
    var received := Received(batches);
    assert m.Keys == {};
    InsertOk(m, received);
    InsertKeys(m, received);
    InsertValues(m, received);
    InsertSelfKeyed(m, received);
    DrainFills(m, 0, None, batches);
    DrainRequestsAll(m, 0, None, batches);
    FreshSize({}, received);
    var o := Drain(m, 0, None, batches);
    assert |o.cache| == |o.cache.Keys|;
  }
}
