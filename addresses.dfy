/** The two string operations the cache uses to derive a key from a mail address:
    `Split('@')[0]` and `ToLower()`. */
module Addresses {

  /** The part of `address` before its first '@', or all of it when there is none:
      what `address.Split('@')[0]` yields. */
  function LocalPart(address: string): (local: string)
    ensures '@' !in local
    ensures |local| <= |address| && local == address[..|local|]
    ensures |local| < |address| ==> address[|local|] == '@'
    decreases |address|
  {
    if address == [] || address[0] == '@' then ""
    else [address[0]] + LocalPart(address[1..])
  }

  /** An address built as `uid@domain` has `uid` as its local part, whatever the domain. */
  lemma LocalPartOfAddress(uid: string, domain: string)
    requires '@' !in uid
    ensures LocalPart(uid + "@" + domain) == uid
  {
    var address := uid + "@" + domain;
    var local := LocalPart(address);
    assert address[|uid|] == '@';
    assert address[..|uid|] == uid;
  }

  /** ASCII lower-casing of one character. */
  function LowerChar(c: char): char
  {
    if 'A' <= c <= 'Z' then (c as int + 32) as char else c
  }

  predicate IsLowerCase(s: string)
  {
    forall i :: 0 <= i < |s| ==> !('A' <= s[i] <= 'Z')
  }

  /** `s.ToLower()`, restricted to ASCII. */
  function Lower(s: string): (r: string)
    ensures |r| == |s|
    ensures forall i :: 0 <= i < |s| ==> r[i] == LowerChar(s[i])
    ensures IsLowerCase(r)
    decreases |s|
  {
    if s == [] then "" else [LowerChar(s[0])] + Lower(s[1..])
  }

  /** Lower-casing leaves a string that is already lower case as it is. */
  lemma {:induction false} LowerOfLowerCase(s: string)
    requires IsLowerCase(s)
    ensures Lower(s) == s
  {
    if s != [] {
      assert IsLowerCase(s[1..]) by {
        forall i | 0 <= i < |s[1..]| ensures !('A' <= s[1..][i] <= 'Z') {
          assert s[1..][i] == s[i + 1];
        }
      }
      LowerOfLowerCase(s[1..]);
    }
  }

  /** The cache key of a mail address: the lower-cased prefix of the address up to its
      first '@'. */
  function CacheKey(mailAddress: string): (key: string)
    ensures '@' !in key && IsLowerCase(key)
    ensures |key| <= |mailAddress|
    ensures forall i :: 0 <= i < |key| ==> key[i] == LowerChar(mailAddress[i])
    ensures |key| < |mailAddress| ==> mailAddress[|key|] == '@'
  {
    var local := LocalPart(mailAddress);
    var key := Lower(local);
    assert forall i :: 0 <= i < |key| ==> key[i] == LowerChar(local[i]);
    assert '@' !in key by {
      forall i | 0 <= i < |key| ensures key[i] != '@' {
        assert local[i] != '@';
      }
    }
    key
  }

  /** The key of `uid@domain` is the lower-cased uid: the key `Add` stores under. */
  lemma CacheKeyOfAddress(uid: string, domain: string)
    requires '@' !in uid
    ensures CacheKey(uid + "@" + domain) == Lower(uid)
  {
    LocalPartOfAddress(uid, domain);
  }
}
