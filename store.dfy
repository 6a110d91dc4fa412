/** The Redis connection, replaced by an in-memory store: a map from key to
    pickled payload and expiry, plus a flag that makes every command fail
    (the store is unreachable or refuses commands). Only the commands the
    cache uses are modelled: GET, SET, SETEX, DEL and KEYS on a `prefix*`
    pattern. Expiry is recorded, never applied: time does not pass. */
module Redis {
  import opened Python
  import opened KeyBuilder

  /** One stored value; `ttl` is the expiry in seconds given to SETEX, None after a plain SET. */
  datatype Entry = Entry(payload: Pickled, ttl: Option<int>)

  /** A snapshot of a store. */
  datatype Db = Db(entries: map<string, Entry>, failing: bool)

  /** The stored keys a `p*` pattern matches. */
  function Matching(entries: map<string, Entry>, p: string): (r: set<string>) {
    set k | k in entries && StartsWith(k, p)
  }

  predicate Distinct(ks: seq<string>) {
    forall i, j :: 0 <= i < j < |ks| ==> ks[i] != ks[j]
  }

  /** The keys a DEL of `keys` finds present. */
  function Present(entries: map<string, Entry>, keys: seq<string>): (r: set<string>) {
    set k | k in keys && k in entries
  }

  class Store {
    var entries: map<string, Entry>
    var failing: bool

    constructor ()
      ensures entries == map[] && !failing
    {
      entries := map[];
      failing := false;
    }

    ghost function Snapshot(): (r: Db)
      reads this
    {
      Db(entries, failing)
    }

    /** GET: the payload under `key`, None when there is none. */
    method Get(key: string) returns (r: Result<Option<Pickled>>)
      ensures failing ==> r == Err(RedisError)
      ensures !failing ==> r == Ok(if key in entries then Some(entries[key].payload) else None)
    {
      if failing {
        return Err(RedisError);
      }
      r := Ok(if key in entries then Some(entries[key].payload) else None);
    }

    /** SET without expiry; it replaces any earlier entry and its expiry. */
    method Set(key: string, payload: Pickled) returns (r: Result<bool>)
      modifies this
      ensures failing == old(failing)
      ensures old(failing) ==> r == Err(RedisError) && entries == old(entries)
      ensures !old(failing) ==> r == Ok(true) && entries == old(entries)[key := Entry(payload, None)]
    {
      if failing {
        return Err(RedisError);
      }
      entries := entries[key := Entry(payload, None)];
      r := Ok(true);
    }

    /** SETEX: Redis refuses an expiry that is not positive. */
    method SetEx(key: string, seconds: int, payload: Pickled) returns (r: Result<bool>)
      modifies this
      ensures failing == old(failing)
      ensures old(failing) || seconds <= 0 ==> r == Err(RedisError) && entries == old(entries)
      ensures !old(failing) && seconds > 0 ==>
        r == Ok(true) && entries == old(entries)[key := Entry(payload, Some(seconds))]
    {
      if failing || seconds <= 0 {
        return Err(RedisError);
      }
      entries := entries[key := Entry(payload, Some(seconds))];
      r := Ok(true);
    }

    /** DEL: removes the listed keys and answers how many of them existed.
        Redis refuses a DEL with no key. */
    method Delete(keys: seq<string>) returns (r: Result<nat>)
      modifies this
      ensures failing == old(failing)
      ensures old(failing) || keys == [] ==> r == Err(RedisError) && entries == old(entries)
      ensures !old(failing) && keys != [] ==>
        r == Ok(|Present(old(entries), keys)|) && entries == old(entries) - set k | k in keys
    {
      if failing || keys == [] {
        return Err(RedisError);
      }
      r := Ok(|Present(entries, keys)|);
      entries := entries - set k | k in keys;
    }

    /** KEYS `p*`: every matching key once, in an order the store chooses. */
    method Keys(p: string) returns (r: Result<seq<string>>)
      ensures failing ==> r == Err(RedisError)
      ensures !failing ==> r.Ok? && Distinct(r.value)
      ensures !failing ==> forall k :: k in r.value <==> k in Matching(entries, p)
    {
      if failing {
        return Err(RedisError);
      }
      var rest := Matching(entries, p);
      var found: seq<string> := [];
      while rest != {}
        invariant rest <= Matching(entries, p)
        invariant Distinct(found)
        invariant forall k :: k in found ==> k !in rest
        invariant forall k :: k in found || k in rest <==> k in Matching(entries, p)
        decreases |rest|
      {
        var k :| k in rest;
        found := found + [k];
        rest := rest - {k};
      }
      r := Ok(found);
    }
  }
}
