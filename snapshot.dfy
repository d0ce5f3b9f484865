/** The JSON snapshot of the cache: `ToJson` writes one array element per cached account
    under "accounts", and `FromJson` rebuilds the dictionary from such an object. How a
    single account is written and read back is not part of this model: it is passed in as
    an `encode` and a `decode` function over an abstract element type `J`. */
module Snapshot {
  import opened Wrappers
  import opened Accounts
  import opened Cache
  import Addresses

  /** A snapshot object: its "accounts" array when the key is present. */
  datatype Document<J> = Document(accounts: Option<seq<J>>)

  /** Every element read back as an account, in array order. */
  function DecodeAll<J>(items: seq<J>, decode: J -> Account): (accounts: seq<Account>)
    ensures |accounts| == |items|
    ensures forall i :: 0 <= i < |items| ==> accounts[i] == decode(items[i])
    decreases |items|
  {
    if items == [] then [] else [decode(items[0])] + DecodeAll(items[1..], decode)
  }

  /** The accounts an import adds, in order; none when the "accounts" key is missing. */
  function Decoded<J>(doc: Document<J>, decode: J -> Account): seq<Account>
  {
    if doc.accounts.None? then [] else DecodeAll(doc.accounts.value, decode)
  }

  /** `order` lists every key of `keys` once: the order in which the dictionary is
      enumerated. */
  predicate IsOrdering(order: seq<string>, keys: set<string>)
  {
    && (forall i :: 0 <= i < |order| ==> order[i] in keys)
    && (forall k :: k in keys ==> k in order)
    && (forall i, j :: 0 <= i < j < |order| ==> order[i] != order[j])
  }

  /** An array written in the order `order`: element i is the encoding of the entry under
      the i-th key. */
  ghost predicate WrittenAs<J>(items: seq<J>, m: AccountMap, order: seq<string>, encode: Account -> J)
  {
    |items| == |order| && forall i :: 0 <= i < |order| ==> order[i] in m && items[i] == encode(m[order[i]])
  }

  /** Accounts with pairwise different uids, none of them in `keys`, are fresh. */
  lemma {:induction false} DistinctFresh(keys: set<string>, accounts: seq<Account>)
    requires forall i :: 0 <= i < |accounts| ==> accounts[i].uid !in keys
    requires forall i, j :: 0 <= i < j < |accounts| ==> accounts[i].uid != accounts[j].uid
    ensures Fresh(keys, accounts)
    decreases |accounts|
  {
    if accounts != [] {
      var rest := accounts[1..];
      forall i | 0 <= i < |rest| ensures rest[i].uid !in keys + {accounts[0].uid} {
        assert rest[i] == accounts[i + 1];
      }
      forall i, j | 0 <= i < j < |rest| ensures rest[i].uid != rest[j].uid {
        assert rest[i] == accounts[i + 1] && rest[j] == accounts[j + 1];
      }
      DistinctFresh(keys + {accounts[0].uid}, rest);
    }
  }

  /** The uids of accounts that all have their uid in `keys` lie in `keys`. */
  lemma {:induction false} UidSetWithin(accounts: seq<Account>, keys: set<string>)
    requires forall i :: 0 <= i < |accounts| ==> accounts[i].uid in keys
    ensures UidSet(accounts) <= keys
    decreases |accounts|
  {
    if accounts != [] {
      var rest := accounts[1..];
      forall i | 0 <= i < |rest| ensures rest[i].uid in keys {
        assert rest[i] == accounts[i + 1];
      }
      UidSetWithin(rest, keys);
    }
  }

  /** Importing accounts whose uids are the keys of a dictionary, in enumeration order,
      succeeds and puts the i-th account under the i-th key, with no other key. */
  lemma ImportOrdered(keys: set<string>, order: seq<string>, accounts: seq<Account>)
    requires IsOrdering(order, keys)
    requires |accounts| == |order| && forall i :: 0 <= i < |order| ==> accounts[i].uid == order[i]
    ensures var r := InsertByUid(map[], accounts);
      && r.ok
      && r.cache.Keys == keys
      && forall i :: 0 <= i < |order| ==> r.cache[order[i]] == accounts[i]
  {
    var empty: AccountMap := map[];
    DistinctFresh(empty.Keys, accounts);
    InsertOk(empty, accounts);
    InsertKeys(empty, accounts);
    InsertValues(empty, accounts);
    UidSetWithin(accounts, keys);
    var r := InsertByUid(empty, accounts);
    forall k | k in keys ensures k in r.cache {
      var i :| 0 <= i < |order| && order[i] == k;
      assert accounts[i] in accounts;
    }
    forall i | 0 <= i < |order| ensures r.cache[order[i]] == accounts[i] {
      assert accounts[i] in accounts;
    }
  }

  /** Export then import: when every entry of the cache is stored under its own uid and the
      decoder reads back the uid the encoder wrote, importing the exported array succeeds
      and rebuilds a dictionary with exactly the same keys, each holding the read-back
      account; if reading back gives every account unchanged, the dictionary is the same. */
  lemma SnapshotRoundTrip<J>(m: AccountMap, order: seq<string>, items: seq<J>,
                             encode: Account -> J, decode: J -> Account)
    requires SelfKeyed(m) && IsOrdering(order, m.Keys) && WrittenAs(items, m, order, encode)
    requires forall k :: k in m ==> decode(encode(m[k])).uid == m[k].uid
    ensures var r := InsertByUid(map[], DecodeAll(items, decode));
      && r.ok
      && r.cache.Keys == m.Keys
      && (forall k :: k in m ==> r.cache[k] == decode(encode(m[k])))
      && ((forall k :: k in m ==> decode(encode(m[k])) == m[k]) ==> r.cache == m)
  {
    var accounts := DecodeAll(items, decode);
    ImportOrdered(m.Keys, order, accounts);
    var r := InsertByUid(map[], accounts);
    forall k | k in m ensures r.cache[k] == decode(encode(m[k])) {
      var i :| 0 <= i < |order| && order[i] == k;
      assert r.cache[order[i]] == accounts[i];
    }
  }

  /** `Add` stores an account under its lower-cased uid, so it keeps every entry under its
      own uid exactly when the uid has no upper-case letter. */
  lemma AddKeepsSelfKeyed(m: AccountMap, account: Account)
    requires SelfKeyed(m)
    ensures SelfKeyed(m[Addresses.Lower(account.uid) := account]) <==> Addresses.Lower(account.uid) == account.uid
  {
    var key := Addresses.Lower(account.uid);
    if key != account.uid {
      assert m[key := account][key].uid != key;
    }
  }
}
