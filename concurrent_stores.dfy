/** The synchronised in-memory stores: ConcurrentIdStore (a flag per key id
    and id), ConcurrentAuthenticationStore (a person id per key and IP
    address) and ConcurrentKeyValueStore (one value per key). Each is a
    class whose one field is the Java `map`; the pure functions on that map
    say what the operations look up and build, and the lemmas say how they
    interact. The locking is not modelled: the operations run one at a time. */
module ConcurrentStores {
  import opened Common

  // ---------------------------------------------------------------- ids

  /** `ConcurrentIdStore.contains`: the outer key is present and its inner
      map holds the id. */
  predicate IdContains(m: map<int, map<int, bool>>, keyId: int, id: int)
  {
    keyId in m && id in m[keyId]
  }

  /** `ConcurrentIdStore.get`: false for an absent key id; for a present key
      id the stored flag, or None when the inner map lacks the id and the
      null is unboxed (a null dereference). */
  function IdGet(m: map<int, map<int, bool>>, keyId: int, id: int): Option<bool>
  {
    if keyId !in m then Some(false)
    else if id in m[keyId] then Some(m[keyId][id])
    else None
  }

  /** `ConcurrentIdStore.put`: an inner map is created for a new key id,
      then the id is set in it. */
  function IdPut(m: map<int, map<int, bool>>, keyId: int, id: int, value: bool): map<int, map<int, bool>>
  {
    var inner := if keyId in m then m[keyId] else map[];
    m[keyId := inner[id := value]]
  }

  /** After `put(keyId, id, value)` the pair is present with that value. */
  lemma IdPutThenGet(m: map<int, map<int, bool>>, keyId: int, id: int, value: bool)
    ensures IdContains(IdPut(m, keyId, id, value), keyId, id)
    ensures IdGet(IdPut(m, keyId, id, value), keyId, id) == Some(value)
  {
  }

  /** `put` changes no other pair's membership, and no other pair's `get`
      except for the one thing the fresh inner map changes: under a key id
      seen for the first time, the other ids go from `false` to throwing. */
  lemma IdPutFrame(m: map<int, map<int, bool>>, keyId: int, id: int, value: bool, keyId': int, id': int)
    requires (keyId', id') != (keyId, id)
    ensures IdContains(IdPut(m, keyId, id, value), keyId', id') == IdContains(m, keyId', id')
    ensures keyId' != keyId || keyId in m ==>
              IdGet(IdPut(m, keyId, id, value), keyId', id') == IdGet(m, keyId', id')
    ensures keyId' == keyId && keyId !in m ==>
              IdGet(m, keyId', id') == Some(false) && IdGet(IdPut(m, keyId, id, value), keyId', id') == None
  {
  }

  /** `get` throws exactly when the key id is known but the id is not, and
      otherwise answers false for every pair `contains` does not hold. */
  lemma IdGetDefined(m: map<int, map<int, bool>>, keyId: int, id: int)
    ensures IdGet(m, keyId, id).None? <==> keyId in m && !IdContains(m, keyId, id)
    ensures keyId !in m ==> !IdContains(m, keyId, id) && IdGet(m, keyId, id) == Some(false)
  {
  }

  class ConcurrentIdStore {
    var store: map<int, map<int, bool>>

    constructor ()
      ensures store == map[]
    {
      store := map[];
    }

    method Put(keyId: int, id: int, value: bool)
      modifies this
      ensures store == IdPut(old(store), keyId, id, value)
    {
      if keyId !in store {
        store := store[keyId := map[]];
      }
      store := store[keyId := store[keyId][id := value]];
    }

    method Contains(keyId: int, id: int) returns (b: bool)
      ensures b == IdContains(store, keyId, id)
    {
      if keyId !in store {
        return false;
      }
      b := id in store[keyId];
    }

    method Get(keyId: int, id: int) returns (r: Option<bool>)
      ensures r == IdGet(store, keyId, id)
    {
      if keyId !in store {
        return Some(false);
      }
      var inner := store[keyId];
      r := if id in inner then Some(inner[id]) else None;
    }

    method Clear()
      modifies this
      ensures store == map[]
      ensures forall keyId: int, id: int :: !IdContains(store, keyId, id)
    {
      store := map[];
    }
  }

  // ------------------------------------------------------ authentication

  /** `ConcurrentAuthenticationStore.contains`. */
  predicate AuthContains(m: map<string, map<string, int>>, key: string, ipAddress: string)
  {
    key in m && ipAddress in m[key]
  }

  /** `ConcurrentAuthenticationStore.get` checks nothing: a missing key or
      address is a null dereference, here None. */
  function AuthGet(m: map<string, map<string, int>>, key: string, ipAddress: string): Option<int>
  {
    if key in m && ipAddress in m[key] then Some(m[key][ipAddress]) else None
  }

  /** `ConcurrentAuthenticationStore.put`. */
  function AuthPut(m: map<string, map<string, int>>, key: string, ipAddress: string, personId: int)
    : map<string, map<string, int>>
  {
    var inner := if key in m then m[key] else map[];
    m[key := inner[ipAddress := personId]]
  }

  /** After `put(key, ip, pid)` the pair is present with that person id, and
      every other pair reads as before. */
  lemma AuthPutThenGet(m: map<string, map<string, int>>, key: string, ipAddress: string, personId: int,
                       key': string, ipAddress': string)
    ensures AuthContains(AuthPut(m, key, ipAddress, personId), key, ipAddress)
    ensures AuthGet(AuthPut(m, key, ipAddress, personId), key, ipAddress) == Some(personId)
    ensures (key', ipAddress') != (key, ipAddress) ==>
              AuthContains(AuthPut(m, key, ipAddress, personId), key', ipAddress') == AuthContains(m, key', ipAddress')
              && AuthGet(AuthPut(m, key, ipAddress, personId), key', ipAddress') == AuthGet(m, key', ipAddress')
  {
  }

  /** `get` yields a person id exactly when `contains` holds, so callers
      must ask `contains` first. */
  lemma AuthGetNeedsContains(m: map<string, map<string, int>>, key: string, ipAddress: string)
    ensures AuthGet(m, key, ipAddress).Some? <==> AuthContains(m, key, ipAddress)
    ensures key !in m ==> !AuthContains(m, key, ipAddress)
  {
  }

  class ConcurrentAuthenticationStore {
    var store: map<string, map<string, int>>

    constructor ()
      ensures store == map[]
    {
      store := map[];
    }

    method Put(key: string, ipAddress: string, personId: int)
      modifies this
      ensures store == AuthPut(old(store), key, ipAddress, personId)
    {
      if key !in store {
        store := store[key := map[]];
      }
      store := store[key := store[key][ipAddress := personId]];
    }

    method Contains(key: string, ipAddress: string) returns (b: bool)
      ensures b == AuthContains(store, key, ipAddress)
    {
      if key !in store {
        return false;
      }
      b := ipAddress in store[key];
    }

    method Get(key: string, ipAddress: string) returns (r: Option<int>)
      ensures r == AuthGet(store, key, ipAddress)
    {
      if key !in store || ipAddress !in store[key] {
        return None;
      }
      r := Some(store[key][ipAddress]);
    }

    method Clear()
      modifies this
      ensures store == map[]
      ensures forall key: string, ipAddress: string :: !AuthContains(store, key, ipAddress)
    {
      store := map[];
    }
  }

  // ----------------------------------------------------------- key/value

  /** `ConcurrentKeyValueStore.put`: a null value is ignored. */
  function KvPut<T, V>(m: map<T, V>, id: T, value: Option<V>): map<T, V>
  {
    if value.None? then m else m[id := value.value]
  }

  /** `ConcurrentKeyValueStore.get`: the value, or null for an absent key. */
  function KvGet<T, V>(m: map<T, V>, id: T): Option<V>
  {
    if id in m then Some(m[id]) else None
  }

  /** A null put changes nothing; a non-null put makes the key present with
      that value and leaves every other key as it was. */
  lemma KvPutThenGet<T, V>(m: map<T, V>, id: T, value: Option<V>, id': T)
    ensures value.None? ==> KvPut(m, id, value) == m
    ensures value.Some? ==> id in KvPut(m, id, value) && KvGet(KvPut(m, id, value), id) == value
    ensures id' != id ==> (id' in KvPut(m, id, value) <==> id' in m)
                          && KvGet(KvPut(m, id, value), id') == KvGet(m, id')
  {
  }

  /** `get` is null exactly for the keys `contains` does not hold. */
  lemma KvGetAbsent<T, V>(m: map<T, V>, id: T)
    ensures KvGet(m, id).None? <==> id !in m
  {
  }

  class ConcurrentKeyValueStore<T(==), V> {
    var store: map<T, V>

    constructor ()
      ensures store == map[]
    {
      store := map[];
    }

    method Put(id: T, value: Option<V>)
      modifies this
      ensures store == KvPut(old(store), id, value)
    {
      if value.None? {
        return;
      }
      store := store[id := value.value];
    }

    method Contains(id: T) returns (b: bool)
      ensures b <==> id in store
    {
      b := id in store;
    }

    method Get(id: T) returns (r: Option<V>)
      ensures r == KvGet(store, id)
    {
      r := if id in store then Some(store[id]) else None;
    }

    method Clear()
      modifies this
      ensures store == map[]
      ensures forall id: T :: id !in store
    {
      store := map[];
    }
  }
}
