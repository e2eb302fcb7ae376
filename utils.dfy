/** utils.safeMap: the string-to-string map the category cache is kept in. */
module Utils {

  /** Go's `m[key]` with the comma-ok form: the value or "" and whether the key is present. */
  function Lookup(m: map<string, string>, key: string): (string, bool) {
    if key in m then (m[key], true) else ("", false)
  }

  class SafeMap {
    var v: map<string, string>

    /** NewSafeMap: an empty map. */
    constructor ()
      ensures v == map[]
    {
      v := map[];
    }

    method Get(key: string) returns (value: string, ok: bool)
      ensures ok <==> key in v
      ensures ok ==> value == v[key]
      ensures !ok ==> value == ""
    {
      ok := key in v;
      value := if ok then v[key] else "";
    }

    method Set(key: string, value: string)
      modifies this
      ensures v == old(v)[key := value]
    {
      v := v[key := value];
    }
  }

  /** A fresh map answers ("", false) for every key. */
  lemma LookupEmpty(key: string)
    ensures Lookup(map[], key) == ("", false)
  {
  }

  /** After Set(k, x), Get(k) gives (x, true), whatever k held before. */
  lemma LookupAfterSet(m: map<string, string>, k: string, x: string)
    ensures Lookup(m[k := x], k) == (x, true)
  {
  }

  /** Set(k, x) leaves the lookup of every other key as it was. */
  lemma LookupAfterSetOther(m: map<string, string>, k: string, x: string, other: string)
    requires other != k
    ensures Lookup(m[k := x], other) == Lookup(m, other)
  {
  }

  /** Of two Sets on one key, the later wins. */
  lemma SetOverwrites(m: map<string, string>, k: string, x: string, y: string)
    ensures m[k := x][k := y] == m[k := y]
  {
  }

  /** The Get method answers what Lookup says, and leaves the map as it was. */
  method GetAgreesWithLookup(s: SafeMap, key: string) returns (value: string, ok: bool)
    ensures (value, ok) == Lookup(s.v, key)
  {
    value, ok := s.Get(key);
  }
}
