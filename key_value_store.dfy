/** The Redis repository behind both cache managers: a string-keyed store of cached JSON texts.
    Entry expiry (the default TTL) is not modelled. */
module KeyValueStore {
  import opened Common
  import opened Schemas

  predicate HasPrefix(key: string, prefix: string) {
    |prefix| <= |key| && key[..|prefix|] == prefix
  }

  /** The store after deleting every key that starts with `prefix`. */
  function WithoutPrefix(data: map<string, CacheText>, prefix: string): (r: map<string, CacheText>)
    ensures forall k :: k in r <==> k in data && !HasPrefix(k, prefix)
    ensures forall k :: k in r ==> r[k] == data[k]
  {
    map k | k in data && !HasPrefix(k, prefix) :: data[k]
  }

  /** A key that extends `p + a` cannot start with `q` when `p` and `q` differ at a position
      inside both: this is why distinct key families never collide. */
  lemma PrefixesExclusive(p: string, a: string, q: string, i: nat)
    requires i < |p| && i < |q| && p[i] != q[i]
    ensures !HasPrefix(p + a, q)
  {
    assert (p + a)[i] == p[i];
  }

  class Store {
    var data: map<string, CacheText>

    constructor ()
      ensures data == map[]
    {
      data := map[];
    }

    method Get(key: string) returns (r: Option<CacheText>)
      ensures key in data ==> r == Some(data[key])
      ensures key !in data ==> r == None
    {
      r := if key in data then Some(data[key]) else None;
    }

    /** Redis `SET` answers True. */
    method Set(key: string, value: CacheText) returns (ok: bool)
      modifies this
      ensures data == old(data)[key := value]
      ensures ok
    {
      data := data[key := value];
      ok := true;
    }

    /** Redis `DEL` answers the number of keys removed, truthy exactly when the key existed. */
    method Delete(key: string) returns (removed: bool)
      modifies this
      ensures data == old(data) - {key}
      ensures removed == (key in old(data))
    {
      removed := key in data;
      data := data - {key};
    }

    /** Deletion by a glob pattern whose only wildcard is a trailing `*`, given here as the
        literal prefix in front of that `*`. */
    method DeleteByPrefix(prefix: string)
      modifies this
      ensures data == WithoutPrefix(old(data), prefix)
    {
      data := WithoutPrefix(data, prefix);
    }

    method Clear()
      modifies this
      ensures data == map[]
    {
      data := map[];
    }
  }
}
