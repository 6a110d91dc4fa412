/** The `CacheMoney` engine: configuration fields and the get, set, delete,
    keys and bust primitives over the store. Each primitive is specified by a
    function on a snapshot of the engine (`State`); the lemmas below state
    what those functions guarantee. */
module Engine {
  import opened Python
  import opened KeyBuilder
  import opened Redis

  /** A snapshot of the engine: its configuration and, when set up, its store. */
  datatype State = State(
    prefix: Option<string>,
    defaultTimeout: Option<int>,
    enabled: bool,
    conn: Option<Db>)

  /** A key as the store hands it back (`Raw`, a byte string) or as a caller
      writes it (`Text`). Byte strings are kept as the text they decode to. */
  datatype Key = Text(s: string) | Raw(s: string)

  /** What `delete` accepts: one key, or a list of keys. */
  datatype KeyArg = One(key: Key) | Many(keys: seq<Key>)

  /** What an operation answers together with the engine afterwards. */
  datatype Reply<+T> = Reply(result: T, after: State)

  predicate Healthy(s: State) {
    s.conn.Some? && !s.conn.value.failing
  }

  function Entries(s: State): (r: map<string, Entry>)
    requires s.conn.Some?
  {
    s.conn.value.entries
  }

  function WithEntries(s: State, entries: map<string, Entry>): (r: State)
    requires s.conn.Some?
  {
    s.(conn := Some(s.conn.value.(entries := entries)))
  }

  // ---------------------------------------------------------------- get

  /** `get(key, default)`: a disabled engine, a missing connection and a
      store error all give `default`; an absent key gives None. */
  function GetResult(s: State, key: string, defaultValue: PyValue): (r: PyValue) {
    if !s.enabled || !Healthy(s) then defaultValue
    else
      var k := MakeKey(s.prefix, key);
      if k in Entries(s) then Loads(Entries(s)[k].payload) else PyNone
  }

  // ---------------------------------------------------------------- set

  /** An explicit timeout wins; an unset one falls back to the default. */
  function ResolveTimeout(timeout: Option<int>, defaultTimeout: Option<int>): (r: Option<int>) {
    if timeout.None? then defaultTimeout else timeout
  }

  /** The expiry a write uses: a truthy (non-zero) timeout, or none. */
  function Expiry(timeout: Option<int>): (r: Option<int>) {
    if timeout.Some? && timeout.value != 0 then timeout else None
  }

  /** `set(key, value, timeout)`: true without touching anything when
      disabled; false, store untouched, when the value cannot be pickled,
      the store is missing or failing, or Redis refuses the expiry. */
  function SetResult(s: State, key: string, value: PyValue, timeout: Option<int>): (r: Reply<bool>) {
    if !s.enabled then Reply(true, s)
    else if !Picklable(value) || !Healthy(s) then Reply(false, s)
    else
      var expiry := Expiry(ResolveTimeout(timeout, s.defaultTimeout));
      if expiry.Some? && expiry.value < 0 then Reply(false, s)
      else Reply(true, WithEntries(s, Entries(s)[MakeKey(s.prefix, key) := Entry(Pickled(value), expiry)]))
  }

  // ---------------------------------------------------------------- delete

  /** Python truthiness of the `keys` argument: "" and [] are falsy. */
  predicate Truthy(keys: KeyArg) {
    match keys
    case One(k) => k.s != ""
    case Many(ks) => ks != []
  }

  /** `isinstance(keys[0], str)`: the first character of a text key, or the first element of a list. */
  predicate FirstIsText(keys: KeyArg)
    requires Truthy(keys)
  {
    match keys
    case One(k) => k.Text?
    case Many(ks) => ks[0].Text?
  }

  function Strings(ks: seq<Key>): (r: seq<string>)
    ensures |r| == |ks|
    ensures forall i :: 0 <= i < |ks| ==> r[i] == ks[i].s
  {
    if ks == [] then [] else [ks[0].s] + Strings(ks[1..])
  }

  predicate AllText(ks: seq<Key>) {
    forall i :: 0 <= i < |ks| ==> ks[i].Text?
  }

  /** The keys `delete` passes to DEL. Text keys are prefixed when asked
      for; byte keys never are; one key becomes a one-element list. Joining
      the prefix with a byte key in a list that starts with text raises. */
  function Targets(prefix: Option<string>, keys: KeyArg, makeKey: bool): (r: Result<seq<string>>)
    requires Truthy(keys)
    ensures r.Err? <==> makeKey && keys.Many? && keys.keys[0].Text? && HasPrefix(prefix) && !AllText(keys.keys)
    ensures r.Err? ==> r.error == TypeError
    ensures r.Ok? && keys.One? ==>
      r.value == [if makeKey && keys.key.Text? then MakeKey(prefix, keys.key.s) else keys.key.s]
    ensures r.Ok? && keys.Many? ==> |r.value| == |keys.keys|
    ensures r.Ok? && keys.Many? ==> forall i :: 0 <= i < |keys.keys| ==>
      r.value[i] == if makeKey && keys.keys[0].Text? then MakeKey(prefix, keys.keys[i].s) else keys.keys[i].s
  {
    if makeKey && FirstIsText(keys) then
      match keys
      case One(k) => Ok([MakeKey(prefix, k.s)])
      case Many(ks) =>
        if HasPrefix(prefix) && !AllText(ks) then Err(TypeError) else Ok(MakeKeys(prefix, Strings(ks)))
    else
      match keys
      case One(k) => Ok([k.s])
      case Many(ks) => Ok(Strings(ks))
  }

  /** `delete(keys, make_key)`: nothing happens and None is answered when
      disabled or given no key; otherwise one DEL whose count is answered.
      Store errors are not caught here. */
  function DeleteResult(s: State, keys: KeyArg, makeKey: bool): (r: Reply<Result<Option<nat>>>) {
    if !s.enabled || !Truthy(keys) then Reply(Ok(None), s)
    else match Targets(s.prefix, keys, makeKey)
      case Err(e) => Reply(Err(e), s)
      case Ok(ks) =>
        if s.conn.None? then Reply(Err(AttributeError), s)
        else if s.conn.value.failing then Reply(Err(RedisError), s)
        else Reply(Ok(Some(|Present(Entries(s), ks)|)), WithEntries(s, Entries(s) - set k | k in ks))
  }

  // ---------------------------------------------------------------- keys

  /** `ks` lists exactly the keys of `m`, each once, all raw or all text. */
  ghost predicate Lists(ks: seq<Key>, m: set<string>, raw: bool) {
    && Distinct(Strings(ks))
    && (forall k :: k in Strings(ks) <==> k in m)
    && (forall i :: 0 <= i < |ks| ==> ks[i].Raw? == raw)
  }

  /** What `keys(function, decode_to_str)` may answer: [] when disabled,
      otherwise the stored keys under the scan prefix, in any order. */
  ghost predicate KeysReply(s: State, target: Option<FunctionId>, decodeToStr: bool, r: Result<seq<Key>>) {
    if !s.enabled then r == Ok([])
    else if s.conn.None? then r == Err(AttributeError)
    else if s.conn.value.failing then r == Err(RedisError)
    else r.Ok? && Lists(r.value, Matching(Entries(s), ScanPrefix(s.prefix, target)), !decodeToStr)
  }

  // ---------------------------------------------------------------- bust

  /** List every key under `scope` and delete them all in one DEL
      (no DEL, and None, when there are none). */
  function ClearScope(s: State, scope: string): (r: Reply<Result<Option<nat>>>) {
    if s.conn.None? then Reply(Err(AttributeError), s)
    else if s.conn.value.failing then Reply(Err(RedisError), s)
    else
      var m := Matching(Entries(s), scope);
      if m == {} then Reply(Ok(None), s)
      else Reply(Ok(Some(|m|)), WithEntries(s, Entries(s) - m))
  }

  /** `bust(force)`: refused without a prefix unless forced; otherwise every
      key under `make_key("")` goes. */
  function BustResult(s: State, force: bool): (r: Reply<Result<Option<nat>>>) {
    if !s.enabled then Reply(Ok(None), s)
    else if !HasPrefix(s.prefix) && !force then Reply(Ok(None), s)
    else ClearScope(s, ScanPrefix(s.prefix, None))
  }

  // ---------------------------------------------------------------- the engine

  class CacheMoney {
    var conn: Store?
    var prefix: Option<string>
    var defaultTimeout: Option<int>
    var enabled: bool

    ghost function Abs(): (r: State)
      reads this, conn
    {
      State(prefix, defaultTimeout, enabled, if conn == null then None else Some(conn.Snapshot()))
    }

    /** A fresh engine is disabled and has no connection. */
    constructor ()
      ensures conn == null && Abs() == State(None, None, false, None)
    {
      conn := null;
      prefix := None;
      defaultTimeout := None;
      enabled := false;
    }

    method SetupCache(conn: Store?, prefix: Option<string>, defaultTimeout: Option<int>, enabled: bool)
      modifies this
      ensures this.conn == conn && this.prefix == prefix
      ensures this.defaultTimeout == defaultTimeout && this.enabled == enabled
    {
      this.conn := conn;
      this.prefix := prefix;
      this.defaultTimeout := defaultTimeout;
      this.enabled := enabled;
    }

    method Get(key: string, defaultValue: PyValue) returns (r: PyValue)
      ensures r == GetResult(Abs(), key, defaultValue)
    {
      if !enabled {
        return defaultValue;
      }
      var k := MakeKey(prefix, key);
      if conn == null {
        return defaultValue;
      }
      var value := conn.Get(k);
      match value
      case Err(_) => r := defaultValue;
      case Ok(None) => r := PyNone;
      case Ok(Some(p)) => r := Loads(p);
    }

    method Set(key: string, value: PyValue, timeout: Option<int>) returns (ok: bool)
      modifies conn
      ensures Reply(ok, Abs()) == SetResult(old(Abs()), key, value, timeout)
    {
      if !enabled {
        return true;
      }
      var k := MakeKey(prefix, key);
      var t := timeout;
      if t.None? {
        t := defaultTimeout;
      }
      var pickled := Dumps(value);
      if pickled.None? {
        return false;
      }
      if conn == null {
        return false;
      }
      var reply;
      if t.Some? && t.value != 0 {
        reply := conn.SetEx(k, t.value, pickled.value);
      } else {
        reply := conn.Set(k, pickled.value);
      }
      ok := reply.Ok? && reply.value;
    }

    method Delete(keys: KeyArg, makeKey: bool) returns (r: Result<Option<nat>>)
      modifies conn
      ensures Reply(r, Abs()) == DeleteResult(old(Abs()), keys, makeKey)
    {
      if !enabled || !Truthy(keys) {
        return Ok(None);
      }
      var targets := Targets(prefix, keys, makeKey);
      if targets.Err? {
        return Err(targets.error);
      }
      if conn == null {
        return Err(AttributeError);
      }
      var count := conn.Delete(targets.value);
      match count
      case Ok(n) => r := Ok(Some(n));
      case Err(e) => r := Err(e);
    }

    method Keys(target: Option<FunctionId>, decodeToStr: bool) returns (r: Result<seq<Key>>)
      ensures KeysReply(Abs(), target, decodeToStr, r)
    {
      if !enabled {
        return Ok([]);
      }
      var scope := ScanPrefix(prefix, target);
      if conn == null {
        return Err(AttributeError);
      }
      var found := conn.Keys(scope);
      if found.Err? {
        return Err(found.error);
      }
      var keys := seq(|found.value|, i requires 0 <= i < |found.value| => Raw(found.value[i]));
      if decodeToStr {
        keys := seq(|keys|, i requires 0 <= i < |keys| => Text(keys[i].s));
      }
      assert Strings(keys) == found.value;
      r := Ok(keys);
    }

    method Bust(force: bool) returns (r: Result<Option<nat>>)
      modifies conn
      ensures Reply(r, Abs()) == BustResult(old(Abs()), force)
    {
      if !enabled {
        return Ok(None);
      }
      if !HasPrefix(prefix) && !force {
        return Ok(None);
      }
      var keys := Keys(None, false);
      if keys.Err? {
        return Err(keys.error);
      }
      DeleteListed(Abs(), keys.value, ScanPrefix(prefix, None));
      r := Delete(Many(keys.value), true);
    }
  }

  // ---------------------------------------------------------------- properties

  /** Deleting a raw listing of a scope clears exactly that scope: this is
      how `bust` and `bust_all` turn `keys` and `delete` into one effect. */
  lemma DeleteListed(s: State, ks: seq<Key>, scope: string)
    requires s.enabled && Healthy(s)
    requires Lists(ks, Matching(Entries(s), scope), true)
    ensures DeleteResult(s, Many(ks), true) == ClearScope(s, scope)
  {
    var m := Matching(Entries(s), scope);
    var strs := Strings(ks);
    if ks == [] {
      assert strs == [];
      assert forall k :: k !in m;
    } else {
      assert ks[0].Raw?;
      assert Targets(s.prefix, Many(ks), true) == Ok(strs);
      assert (set k | k in strs) == m;
      assert Present(Entries(s), strs) == m;
      assert m != {} by { assert strs[0] in m; }
    }
  }

  /** With the switch off nothing reaches the store: `get` gives the default,
      `set` reports success, `delete` and `bust` answer None, `keys` gives []. */
  lemma DisabledIsInert(s: State, key: string, value: PyValue, timeout: Option<int>, defaultValue: PyValue,
                        keys: KeyArg, makeKey: bool, force: bool, target: Option<FunctionId>, decodeToStr: bool,
                        r: Result<seq<Key>>)
    requires !s.enabled
    ensures GetResult(s, key, defaultValue) == defaultValue
    ensures SetResult(s, key, value, timeout) == Reply(true, s)
    ensures DeleteResult(s, keys, makeKey) == Reply(Ok(None), s)
    ensures BustResult(s, force) == Reply(Ok(None), s)
    ensures KeysReply(s, target, decodeToStr, r) <==> r == Ok([])
  {
  }

  /** `get` on an enabled, reachable store: the stored value when present,
      None (not the default) when absent. */
  lemma GetPresentOrNone(s: State, key: string, defaultValue: PyValue)
    requires s.enabled && Healthy(s)
    ensures MakeKey(s.prefix, key) in Entries(s) ==>
      GetResult(s, key, defaultValue) == Loads(Entries(s)[MakeKey(s.prefix, key)].payload)
    ensures MakeKey(s.prefix, key) !in Entries(s) ==> GetResult(s, key, defaultValue) == PyNone
  {
  }

  /** A store that is missing or failing reads as the default. */
  lemma GetStoreErrorGivesDefault(s: State, key: string, defaultValue: PyValue)
    requires !Healthy(s)
    ensures GetResult(s, key, defaultValue) == defaultValue
  {
  }

  /** On an enabled engine `set` succeeds exactly when the value pickles, the
      store is reachable and the resolved expiry is not negative; a failed
      `set` changes nothing. */
  lemma SetSucceedsWhen(s: State, key: string, value: PyValue, timeout: Option<int>)
    requires s.enabled
    ensures var t := ResolveTimeout(timeout, s.defaultTimeout);
      SetResult(s, key, value, timeout).result <==>
        Picklable(value) && Healthy(s) && !(t.Some? && t.value < 0)
    ensures !SetResult(s, key, value, timeout).result ==> SetResult(s, key, value, timeout).after == s
  {
  }

  /** A successful write on an enabled engine stores the value under the
      prefixed key with the resolved expiry (none when it is unset or zero),
      and leaves every other key and the configuration alone. */
  lemma SetWrites(s: State, key: string, value: PyValue, timeout: Option<int>, other: string)
    requires s.enabled
    requires SetResult(s, key, value, timeout).result
    ensures var s' := SetResult(s, key, value, timeout).after;
      var t := ResolveTimeout(timeout, s.defaultTimeout);
      && s'.conn.Some? && s'.prefix == s.prefix && s'.enabled && s'.defaultTimeout == s.defaultTimeout
      && MakeKey(s.prefix, key) in Entries(s')
      && Entries(s')[MakeKey(s.prefix, key)].payload == Pickled(value)
      && Entries(s')[MakeKey(s.prefix, key)].ttl == (if t.Some? && t.value != 0 then t else None)
      && (other != MakeKey(s.prefix, key) ==>
            (other in Entries(s') <==> other in Entries(s)) &&
            (other in Entries(s) ==> Entries(s')[other] == Entries(s)[other]))
  {
  }

  /** The round trip: after a successful `set(k, v)` on an enabled engine, `get(k)` gives `v`. */
  lemma SetThenGet(s: State, key: string, value: PyValue, timeout: Option<int>, defaultValue: PyValue)
    requires s.enabled
    requires SetResult(s, key, value, timeout).result
    ensures GetResult(SetResult(s, key, value, timeout).after, key, defaultValue) == value
  {
    DumpsLoads(value);
  }

  /** An empty key or list is a no-op, whatever the store. */
  lemma DeleteNothing(s: State, keys: KeyArg, makeKey: bool)
    requires !Truthy(keys)
    ensures DeleteResult(s, keys, makeKey) == Reply(Ok(None), s)
  {
  }

  /** On an enabled, reachable store, `delete` of one key removes exactly one
      stored key: the prefixed text key when `make_key` is set, the key as
      given otherwise and for every byte key. */
  lemma DeleteOneKey(s: State, key: Key, makeKey: bool)
    requires s.enabled && Healthy(s) && key.s != ""
    ensures var target := if makeKey && key.Text? then MakeKey(s.prefix, key.s) else key.s;
      var reply := DeleteResult(s, One(key), makeKey);
      reply.after.conn.Some? &&
      Entries(reply.after) == Entries(s) - {target} &&
      reply.result == Ok(Some(if target in Entries(s) then 1 else 0))
  {
    var target := if makeKey && key.Text? then MakeKey(s.prefix, key.s) else key.s;
    assert Targets(s.prefix, One(key), makeKey) == Ok([target]);
    assert (set k | k in [target]) == {target};
    if target in Entries(s) {
      assert Present(Entries(s), [target]) == {target};
    } else {
      assert Present(Entries(s), [target]) == {};
    }
  }

  /** A list of byte keys is deleted as given: `make_key` never re-prefixes it. */
  lemma DeleteRawList(s: State, ks: seq<Key>, makeKey: bool)
    requires ks != [] && forall i :: 0 <= i < |ks| ==> ks[i].Raw?
    ensures DeleteResult(s, Many(ks), makeKey) == DeleteResult(s, Many(ks), false)
  {
  }

  /** A list of text keys with `make_key` set is deleted with every key
      prefixed, in order. */
  lemma DeleteTextList(s: State, ks: seq<Key>)
    requires ks != [] && AllText(ks)
    ensures Targets(s.prefix, Many(ks), true) == Ok(MakeKeys(s.prefix, Strings(ks)))
    ensures Targets(s.prefix, Many(ks), false) == Ok(Strings(ks))
  {
  }

  /** Without a prefix or a function, `keys()` lists every key in the store. */
  lemma KeysWithoutPrefixListAll(s: State, decodeToStr: bool, r: Result<seq<Key>>)
    requires s.enabled && Healthy(s) && !HasPrefix(s.prefix)
    requires KeysReply(s, None, decodeToStr, r)
    ensures r.Ok? && forall k :: k in Strings(r.value) <==> k in Entries(s)
  {
    assert ScanPrefix(s.prefix, None) == "";
    forall k | k in Entries(s) ensures k in Matching(Entries(s), "") {
      assert StartsWith(k, "");
    }
  }

  /** `bust()` without a prefix and without `force` leaves everything alone. */
  lemma BustRefusedWithoutPrefix(s: State)
    requires !HasPrefix(s.prefix)
    ensures BustResult(s, false) == Reply(Ok(None), s)
  {
  }

  /** With a prefix, `bust()` on a reachable store removes exactly the keys
      in the prefix's namespace and keeps every other key. */
  lemma BustClearsNamespace(s: State, force: bool, k: string)
    requires s.enabled && Healthy(s) && HasPrefix(s.prefix)
    ensures var s' := BustResult(s, force).after;
      s'.conn.Some? &&
      (k in Entries(s') <==> k in Entries(s) && !StartsWith(k, s.prefix.value + ":")) &&
      (k in Entries(s') ==> Entries(s')[k] == Entries(s)[k])
  {
    assert ScanPrefix(s.prefix, None) == s.prefix.value + ":";
  }

  /** Forced without a prefix, `bust` on a reachable store empties it. */
  lemma ForcedBustEmptiesStore(s: State)
    requires s.enabled && Healthy(s) && !HasPrefix(s.prefix)
    ensures var s' := BustResult(s, true).after; s'.conn.Some? && Entries(s') == map[]
  {
    var m := Matching(Entries(s), ScanPrefix(s.prefix, None));
    assert ScanPrefix(s.prefix, None) == "";
    forall k | k in Entries(s) ensures k in m { assert StartsWith(k, ""); }
    assert Entries(s) - m == map[];
  }
}
