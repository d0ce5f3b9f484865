/** Filling a dictionary of accounts keyed by their verbatim uid, one `Dictionary.Add`
    after the other, as the bulk load and the snapshot import do. `Add` throws on a key
    that is already present, which stops the fill and keeps what was added before. */
module Cache {
  import opened Accounts

  type AccountMap = map<string, Account>

  /** `m'` holds every entry of `m`, unchanged. */
  predicate Extends(m: AccountMap, m': AccountMap)
  {
    forall k :: k in m ==> k in m' && m'[k] == m[k]
  }

  /** Every entry is stored under its own uid. */
  predicate SelfKeyed(m: AccountMap)
  {
    forall k :: k in m ==> m[k].uid == k
  }

  /** The uids of the accounts. */
  function UidSet(accounts: seq<Account>): set<string>
    decreases |accounts|
  {
    if accounts == [] then {} else {accounts[0].uid} + UidSet(accounts[1..])
  }

  /** Added one after the other, the accounts never meet a uid that is already present:
      no account has a uid in `keys`, and no two accounts share a uid. */
  predicate Fresh(keys: set<string>, accounts: seq<Account>)
    decreases |accounts|
  {
    accounts == [] || (accounts[0].uid !in keys && Fresh(keys + {accounts[0].uid}, accounts[1..]))
  }

  lemma {:induction false} UidSetConcat(a: seq<Account>, b: seq<Account>)
    ensures UidSet(a + b) == UidSet(a) + UidSet(b)
    decreases |a|
  {
    if a != [] {
      assert (a + b)[0] == a[0] && (a + b)[1..] == a[1..] + b;
      UidSetConcat(a[1..], b);
      assert UidSet(a + b) == {a[0].uid} + UidSet(a[1..] + b);
    } else {
      assert a + b == b;
    }
  }

  /** Accounts are fresh together exactly when the first part is fresh and the second
      part is fresh once the first part's uids are taken as well. */
  lemma {:induction false} FreshConcat(keys: set<string>, a: seq<Account>, b: seq<Account>)
    ensures Fresh(keys, a + b) <==> Fresh(keys, a) && Fresh(keys + UidSet(a), b)
    decreases |a|
  {
    if a == [] {
      assert a + b == b && keys + UidSet(a) == keys;
    } else {
      assert (a + b)[0] == a[0] && (a + b)[1..] == a[1..] + b;
      FreshConcat(keys + {a[0].uid}, a[1..], b);
      assert keys + {a[0].uid} + UidSet(a[1..]) == keys + UidSet(a);
    }
  }

  /** Fresh accounts have pairwise different uids, none of them in `keys`. */
  lemma {:induction false} FreshDistinct(keys: set<string>, accounts: seq<Account>)
    requires Fresh(keys, accounts)
    ensures forall i :: 0 <= i < |accounts| ==> accounts[i].uid !in keys
    ensures forall i, j :: 0 <= i < j < |accounts| ==> accounts[i].uid != accounts[j].uid
    decreases |accounts|
  {
    if accounts != [] {
      var rest := accounts[1..];
      FreshDistinct(keys + {accounts[0].uid}, rest);
      forall i | 1 <= i < |accounts| ensures accounts[i].uid !in keys + {accounts[0].uid} {
        assert accounts[i] == rest[i - 1];
      }
      forall i, j | 1 <= i < j < |accounts| ensures accounts[i].uid != accounts[j].uid {
        assert accounts[i] == rest[i - 1] && accounts[j] == rest[j - 1];
      }
    }
  }

  /** What a fill left behind: the dictionary, the number of entries added, and whether
      it ran to the end (false: an `Add` met a key that was already present). */
  datatype Inserted = Inserted(cache: AccountMap, added: nat, ok: bool)

  /** Add the accounts one by one under their verbatim uid, stopping at the first uid
      already present. */
  function InsertByUid(m: AccountMap, accounts: seq<Account>): (r: Inserted)
    ensures r.added <= |accounts| && (r.ok ==> r.added == |accounts|)
    decreases |accounts|
  {
    if accounts == [] then Inserted(m, 0, true)
    else
      var account := accounts[0];
      if account.uid in m then Inserted(m, 0, false)
      else
        var r := InsertByUid(m[account.uid := account], accounts[1..]);
        Inserted(r.cache, r.added + 1, r.ok)
  }

  /** A fill keeps every entry that was there before, unchanged. */
  lemma {:induction false} InsertKeeps(m: AccountMap, accounts: seq<Account>)
    ensures Extends(m, InsertByUid(m, accounts).cache)
    decreases |accounts|
  {
    if accounts != [] && accounts[0].uid !in m {
      InsertKeeps(m[accounts[0].uid := accounts[0]], accounts[1..]);
    }
  }

  /** The fill runs to the end exactly when the accounts are fresh. */
  lemma {:induction false} InsertOk(m: AccountMap, accounts: seq<Account>)
    ensures InsertByUid(m, accounts).ok <==> Fresh(m.Keys, accounts)
    decreases |accounts|
  {
    if accounts != [] && accounts[0].uid !in m {
      var m' := m[accounts[0].uid := accounts[0]];
      assert m'.Keys == m.Keys + {accounts[0].uid};
      InsertOk(m', accounts[1..]);
    }
  }

  /** A fill that runs to the end adds the uid of every account and no other key. */
  lemma {:induction false} InsertKeys(m: AccountMap, accounts: seq<Account>)
    requires InsertByUid(m, accounts).ok
    ensures InsertByUid(m, accounts).cache.Keys == m.Keys + UidSet(accounts)
    decreases |accounts|
  {
    if accounts != [] {
      var m' := m[accounts[0].uid := accounts[0]];
      assert m'.Keys == m.Keys + {accounts[0].uid};
      InsertKeys(m', accounts[1..]);
    }
  }

  /** A fill that runs to the end stores every account under its uid. */
  lemma {:induction false} InsertValues(m: AccountMap, accounts: seq<Account>)
    requires InsertByUid(m, accounts).ok
    ensures var r := InsertByUid(m, accounts);
      forall a :: a in accounts ==> a.uid in r.cache && r.cache[a.uid] == a
    decreases |accounts|
  {
    if accounts != [] {
      var account := accounts[0];
      var rest := accounts[1..];
      var m' := m[account.uid := account];
      InsertValues(m', rest);
      InsertKeeps(m', rest);
      var r' := InsertByUid(m', rest);
      assert r'.cache[account.uid] == account by {
        assert account.uid in m' && Extends(m', r'.cache);
      }
      forall a | a in accounts ensures a.uid in r'.cache && r'.cache[a.uid] == a {
        if a != account { assert a in rest; }
      }
    }
  }

  /** A fill that stops has added exactly the accounts before the first clash, as a fill
      with just those would, and the account it stopped at has a uid that is already
      present: nothing added before the clash is rolled back. */
  lemma {:induction false} InsertStops(m: AccountMap, accounts: seq<Account>)
    requires !InsertByUid(m, accounts).ok
    ensures var r := InsertByUid(m, accounts);
      && r.added < |accounts|
      && InsertByUid(m, accounts[..r.added]) == Inserted(r.cache, r.added, true)
      && accounts[r.added].uid in r.cache
    decreases |accounts|
  {
    var account := accounts[0];
    if account.uid in m {
      assert accounts[..0] == [];
    } else {
      var rest := accounts[1..];
      var m' := m[account.uid := account];
      InsertStops(m', rest);
      var k := InsertByUid(m', rest).added;
      assert accounts[..k + 1] == [account] + rest[..k];
      assert accounts[..k + 1][1..] == rest[..k];
    }
  }

  /** Filling with `a + b` is filling with `a` and, if that ran to the end, going on with
      `b`: a fill that stops keeps what it added before it stopped. */
  lemma {:induction false} InsertConcat(m: AccountMap, a: seq<Account>, b: seq<Account>)
    ensures var r := InsertByUid(m, a);
      var s := InsertByUid(r.cache, b);
      InsertByUid(m, a + b) == if r.ok then Inserted(s.cache, r.added + s.added, s.ok) else r
    decreases |a|
  {
    if a == [] {
      assert a + b == b;
    } else {
      assert (a + b)[0] == a[0] && (a + b)[1..] == a[1..] + b;
      if a[0].uid !in m {
        InsertConcat(m[a[0].uid := a[0]], a[1..], b);
      }
    }
  }

  /** A fill keeps every entry under its own uid. */
  lemma {:induction false} InsertSelfKeyed(m: AccountMap, accounts: seq<Account>)
    requires SelfKeyed(m)
    ensures SelfKeyed(InsertByUid(m, accounts).cache)
    decreases |accounts|
  {
    if accounts != [] && accounts[0].uid !in m {
      InsertSelfKeyed(m[accounts[0].uid := accounts[0]], accounts[1..]);
    }
  }

  /** Fresh accounts bring as many new keys as there are accounts. */
  lemma {:induction false} FreshSize(keys: set<string>, accounts: seq<Account>)
    requires Fresh(keys, accounts)
    ensures |UidSet(accounts)| == |accounts| && keys !! UidSet(accounts)
    decreases |accounts|
  {
    if accounts != [] {
      var rest := accounts[1..];
      FreshSize(keys + {accounts[0].uid}, rest);
      assert UidSet(accounts) == {accounts[0].uid} + UidSet(rest);
    }
  }
}
