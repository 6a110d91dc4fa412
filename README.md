# cache-money in Dafny

A Dafny model of Cache Money's `CacheMoney` engine, with proofs about it. Cache Money is an asyncio cache over Redis.

The engine keeps four settings:
- a key prefix;
- a default timeout;
- an on/off switch;
- a Redis connection.

The engine offers five store primitives: `get`, `set`, `delete`, `keys` and `bust`.

The `cached` decorator memoizes an async function. It gets a key from the function's module, the function's name and a digest of the call's arguments. It serves a stored result when there is one. Otherwise it runs the function and stores the result, unless the result is None. The decorated function also gains `make_key`, `bust(args)` and `bust_all()`.

The model has five files and one scenario file:
- `python.dfy` (module `Python`) holds Python values, the exceptions involved, and `pickle` reduced to an accept-or-refuse round trip.
- `keys.dfy` (module `KeyBuilder`) builds keys:
  - the engine's `make_key`;
  - the decorator's `module:name:digest` keys;
  - the default digest `_key_fn`;
  - the scan prefixes used by `keys`, `bust` and `bust_all`.
- `store.dfy` (module `Redis`) replaces the Redis connection with an in-memory class `Store`.
  - It supports GET, SET, SETEX, DEL and KEYS `p*`.
  - A `failing` flag makes every command fail.
  - A key's timeout is recorded as metadata on its entry. Keys never actually expire.
- `engine.dfy` (module `Engine`) holds the class `CacheMoney` and specification functions on a value snapshot `State`.
  - Each method's `ensures` ties its answer and its new state to one of these functions.
  - The lemmas state what the functions guarantee.
- `memoize.dfy` (module `Memoize`) models the decorator.
  - The class `Memoized` has `Call` (the wrapper `inner`), `MakeKey`, `Bust` and `BustAll`.
  - `Call`, `Bust` and `BustAll` are proved against `CallStep`, `BustStep` and `BustAllStep`.
  - Two things are passed in as parameters: the wrapped function's result for each call, and the key function.
  - A ghost log records every call that reached the wrapped function.
- `scenario.dfy` (module `Scenario`) replays the stages of `tests/test_cache.py` on the specification functions, one lemma per stage, with the test's expectations as `assert` statements. Each stage starts from the state it begins in in the test, built explicitly or described by the lemma's requires. The stages are not chained into one run.

Python truthiness is modelled as the code has it:
- a prefix of None or "" means no prefix;
- a timeout of 0 means a plain SET with no expiry;
- a key of "" or [] makes `delete` do nothing.

Behaviours of the code that its docstrings do not mention or contradict, modelled as the code has them:
- `delete`, `keys`, `bust` and `bust_all` do not catch store errors. Only `get` and `set` do: `get` answers the default and `set` answers false.
- `set` decides on expiry by the truthiness of the resolved timeout, not by its sign. A negative timeout therefore reaches SETEX, which Redis refuses, and `set` answers false.
- The digest of the default key function depends on the order of the keyword arguments. `pickle` keeps a dict's insertion order, so `f(x=1, y=2)` and `f(y=2, x=1)` get different entries.
- The `get` docstring says a missing value gives `default`, but the code returns None for an absent key (`Engine.GetPresentOrNone`). Only a disabled engine or a store error gives `default`.
- With the default key function, unpicklable arguments make the decorator's `make_key` raise inside `inner`. The decorated call then raises, modelled as `PicklingError`, without running the function (`Memoize.CallStep` with an `Err` key).

## Model

| member | source | states |
|---|---|---|
| KeyBuilder.MakeKey | cache_money/cache.py:60-61 | the single-key `make_key` adds exactly the prefix and one colon to the key's length when there is a (truthy) prefix, and nothing otherwise |
| KeyBuilder.MakeKeys | cache_money/cache.py:62 | the list form of `make_key` keeps the length and applies the single-key rule to each element, in order |
| KeyBuilder.MakeKeyShape | cache_money/cache.py:60-61 | without a (truthy) prefix a key is returned unchanged; with one the key becomes `prefix:` followed by the key |
| KeyBuilder.MakeKeyAppend | cache_money/cache.py:61 | prefixing commutes with appending, so a scan for `make_key(x)*` finds the keys built from `x` followed by anything |
| KeyBuilder.MakeKeyInjective | cache_money/cache.py:60-61 | under one prefix, distinct keys stay distinct |
| KeyBuilder.MakeKeyStartsWith | cache_money/cache.py:60-61 | under one prefix, one key extends another if and only if the unprefixed keys do |
| KeyBuilder.KeyDigest | cache_money/cache.py:178-180 | the default key function fails exactly on unpicklable arguments, and otherwise gives the MD5 of the pickled `(args, kwargs)` |
| KeyBuilder.KeyDigestSeparates | cache_money/cache.py:178-180 | two calls share a default digest only when their arguments are equal or MD5 collides on two different pickles |
| KeyBuilder.FunctionKeyInjective | cache_money/cache.py:211-213 | a `module:name:digest` key whose module and function names hold no colon determines the module name, the function name and the digest |
| KeyBuilder.FunctionKeyDistinct | cache_money/cache.py:211-213 | under one engine prefix, distinct (module, name, digest) triples with colon-free names are stored under distinct keys |
| KeyBuilder.FunctionKeyInScope | cache_money/cache.py:211-213 | every key the decorator builds for a (module, name) pair lies under that pair's scan prefix, under any engine prefix |
| KeyBuilder.OwnScopeIsolated | cache_money/cache.py:171-173 | with the closing colon in place, the scan prefix of a (module, name) pair holds the key of no other pair with colon-free names |
| KeyBuilder.AsWrittenScopeOverlaps | cache_money/cache.py:171-173 | the scan prefix as written for `add` covers the keys of `addition` in the same module |
| KeyBuilder.ColonSplit | cache_money/cache.py:213 | a string splits at its first colon in only one way, which makes the colon-joined keys decodable |
| Python.DumpsLoads | cache_money/cache.py:99-102 | `pickle.dumps` fails exactly on unpicklable values, and `loads` after `dumps` yields the original value |
| Python.KwargsDict | cache_money/cache.py:178-180 | the `**kwargs` dict keeps every keyword argument, in the caller's order |
| Python.ArgsValueInjective | cache_money/cache.py:180 | different calls give different `(args, kwargs)` tuples, kwargs order included |
| Python.ArgsPicklable | cache_money/cache.py:180 | the `(args, kwargs)` tuple pickles if and only if every argument does |
| Redis.Store.Get | cache_money/cache.py:77 | GET gives the stored payload or None, and an error when the store fails |
| Redis.Store.Set | cache_money/cache.py:108 | SET writes the payload with no expiry, replacing any earlier entry; a failing store refuses it and the entries stay the same |
| Redis.Store.SetEx | cache_money/cache.py:105-106 | SETEX writes the payload with its expiry; a failing store or an expiry that is not positive is refused and the entries stay the same |
| Redis.Store.Delete | cache_money/cache.py:131 | DEL removes exactly the listed keys and answers how many of them were present; a DEL with no key is refused |
| Redis.Store.Keys | cache_money/cache.py:173 | KEYS `p*` lists each stored key starting with `p` exactly once, and no other key |
| Engine.CacheMoney.constructor | cache_money/cache.py:23-27 | a new engine is disabled and has no connection, prefix or default timeout |
| Engine.CacheMoney.SetupCache | cache_money/cache.py:29-48 | the four settings take the given values |
| Engine.CacheMoney.Get | cache_money/cache.py:64-85 | the answer is the one `GetResult` gives for the current state |
| Engine.CacheMoney.Set | cache_money/cache.py:87-111 | the answer and the new state are those `SetResult` gives for the old state |
| Engine.CacheMoney.Delete | cache_money/cache.py:113-131 | the answer and the new state are those `DeleteResult` gives for the old state |
| Engine.CacheMoney.Keys | cache_money/cache.py:154-176 | disabled gives []; otherwise every stored key under `make_key(function_name)`, closed by a colon when a function is given (see Findings), appears exactly once, as bytes or decoded as asked; a missing or failing store gives an error |
| Engine.CacheMoney.Bust | cache_money/cache.py:133-152 | the answer and the new state are those `BustResult` gives for the old state |
| Engine.Targets | cache_money/cache.py:126-129 | the keys `delete` sends: one key becomes a one-element list; text keys are prefixed, element by element and in order, only when `make_key` is set and the first element is text; byte keys pass as given; a prefixed list that starts with text and holds a byte key raises `TypeError`, and nothing else does |
| Engine.DeleteListed | cache_money/cache.py:151-152 | deleting the byte-key listing of a scope removes exactly that scope's keys and reports their number; an empty listing deletes nothing |
| Engine.DisabledIsInert | cache_money/cache.py:71-169 | when disabled, `get` gives the default, `set` gives true, `delete` and `bust` give None, and `keys` gives []; none of them changes anything (the guards at lines 71-72, 91-92, 123-124, 140-141 and 168-169) |
| Engine.GetPresentOrNone | cache_money/cache.py:76-85 | when enabled with a reachable store, `get` gives the stored value if the key is present and None (not the default) if it is absent |
| Engine.GetStoreErrorGivesDefault | cache_money/cache.py:76-80 | a missing or failing store reads as the default |
| Engine.SetSucceedsWhen | cache_money/cache.py:94-111 | when enabled, `set` succeeds if and only if the value pickles, the store is reachable and the resolved timeout is not negative; a failed `set` changes nothing |
| Engine.SetWrites | cache_money/cache.py:94-108 | a successful `set` stores the value under the prefixed key; the expiry is the explicit timeout, else the default, and none when that is unset or 0; other keys and the settings are unchanged |
| Engine.SetThenGet | cache_money/cache.py:64-111 | after a successful `set(k, v)`, `get(k)` gives `v` |
| Engine.DeleteNothing | cache_money/cache.py:123-124 | `delete` of "" or [] is a no-op that answers None |
| Engine.DeleteOneKey | cache_money/cache.py:126-131 | deleting one key removes exactly one key and answers 1 or 0: the prefixed key for a text key with `make_key` set, the key as given otherwise |
| Engine.DeleteRawList | cache_money/cache.py:126 | a list of byte keys is deleted as given, whatever `make_key` says |
| Engine.DeleteTextList | cache_money/cache.py:126-129 | a list of text keys is prefixed one by one, in order, when `make_key` is set, and left unchanged when it is not |
| Engine.KeysWithoutPrefixListAll | cache_money/cache.py:168-176 | with no prefix and no function, `keys()` lists every stored key |
| Engine.BustRefusedWithoutPrefix | cache_money/cache.py:143-149 | `bust()` with no prefix and without `force` changes nothing and answers None |
| Engine.BustClearsNamespace | cache_money/cache.py:151-152 | with a prefix, `bust` leaves exactly the stored keys outside `prefix:`, with their entries unchanged |
| Engine.ForcedBustEmptiesStore | cache_money/cache.py:143-152 | `bust(force=True)` with no prefix empties the store |
| Memoize.Memoized.constructor | cache_money/cache.py:210-242 | `decorator(fn)` builds a handle bound to the engine, the function, the key function and the timeout, and the function has not run yet |
| Memoize.BustAllStep | cache_money/cache.py:219-222 | `bust_all()` with the corrected scope: disabled it changes nothing and answers None; on a reachable store exactly the keys outside the function's `module:name:` scope survive, with their entries unchanged |
| Memoize.BustAllStepAsWritten | cache_money/cache.py:219-222 | `bust_all()` as written: disabled it changes nothing and answers None; on a reachable store exactly the keys that do not start with `make_key("module:name")` survive, with their entries unchanged |
| Memoize.Memoized.MakeKey | cache_money/cache.py:211-213 | a key exists exactly when the key function succeeds, and it always lies in the function's own scope `module:name:` |
| Memoize.Memoized.Call | cache_money/cache.py:224-237 | the answer and the new state are those `CallStep` gives; the call is logged exactly when the wrapped function ran |
| Memoize.Memoized.Bust | cache_money/cache.py:215-217 | the answer and the new state are those `BustStep` gives |
| Memoize.Memoized.BustAll | cache_money/cache.py:219-222 | the answer and the new state are those `BustAllStep` gives (with the closing colon) |
| Memoize.DisabledCallsThrough | cache_money/cache.py:226-227 | when disabled, every call runs the function, returns its result and leaves the store alone |
| Memoize.CalledOnlyOnMiss | cache_money/cache.py:229-237 | the function runs if and only if the engine is disabled or the key reads None; when it runs, its result or error is passed on unchanged, and otherwise the cached value is returned |
| Memoize.NoneIsNotCached | cache_money/cache.py:234-235 | a call that produced None or raised leaves the engine as it was |
| Memoize.SecondCallIsHit | cache_money/cache.py:229-237 | memoization: after a call that returned a picklable non-None value, a second call with the same key does not run the function, gives the same result and changes nothing |
| Memoize.BustRemovesOnlyThatCall | cache_money/cache.py:215-217 | `bust(args)` removes that call's entry and keeps, unchanged, the entry of every other (module, name, digest) triple with colon-free names |
| Memoize.BustAllRemovesOnlyOwnEntries | cache_money/cache.py:219-222 | `bust_all()` with the corrected scope removes every entry of the function's (module, name) pair and keeps, unchanged, the entries of every other pair with colon-free names |
| Memoize.DefaultKeysSeparate | cache_money/cache.py:178-213 | with the default key function, a decorated function's `make_key` fails exactly on unpicklable arguments, and two calls share a key only when their arguments are equal or MD5 collides |
| Memoize.BustAllAsWrittenReachesNeighbour | cache_money/cache.py:219-222 | `bust_all()` as written, called on `add`, deletes a stored entry of `addition` from the same module |

## Left out

- `cache_money/engine.py`, `init_cache_money` and `close_cache_money` are not part of this model. They set up and tear down the module-wide Redis connection, which is I/O, so a connection appears only as a `Store` passed to `SetupCache`.
- Redis expiry over time: a timeout is recorded on the entry, but time never passes, so entries never expire.
- `pickle` and `hashlib.md5` internals: pickling is the identity on values it accepts. MD5 is a function parameter and the model assumes nothing about it.
- Unpickling errors on foreign payloads written by other clients: every payload in the store came through `set`.
- `inspect.getmodule`: a function is identified by an explicit module name and function name (`FunctionId`). Two different Python functions with the same module and `__name__` are one `FunctionId`, such as two closures from one factory or same-named methods of two classes. The source gives them one key scope too: one function's call can be served the other's cached result, and `bust`/`bust_all` on one removes the other's entries. The key properties are stated for (module, name) pairs, not for function objects.
- `async`/`await`, interleaving of concurrent tasks and the absence of single-flight coalescing: every operation runs to completion before the next one starts.
- Logging of swallowed exceptions.
- `cache_money/utils.py`: `decode` is the `Raw`-to-`Text` change of key tag, and a byte key is kept as the text it decodes to. UTF-8 decoding errors and `get_function_path` are not modelled.
- Glob metacharacters (`*`, `?`, `[`) in a prefix or a function name: the KEYS scan is modelled as a plain prefix match.
- Float and other non-integer timeouts: a timeout is an optional integer, so `int(timeout)` truncation is not modelled.
- Lists passed to `delete` that mix text and byte keys: the model decides by the first element, as the code does. A list that starts with a byte key passes as given, prefix or not. A list that starts with text raises `TypeError` when `make_key` is set and there is a prefix, and otherwise passes as given.
- `examples/caching.py` is not part of this model.
- Engine.CacheMoney.Keys: for a function it lists the corrected scope `module:name:` of the finding below, not the source's `module:name*` scan. So it omits the keys of other functions whose name extends this one, which the source lists. The source's scan is kept as `KeyBuilder.ScanPrefixAsWritten`.
- Memoize.Memoized.BustAll: it clears the corrected scope of the finding below (`Memoize.BustAllStep`). So it keeps the entries of other functions whose name extends this one, which the source deletes. The source's behaviour is `Memoize.BustAllStepAsWritten`.
- `Memoize.Memoized.Call`: the wrapped function's result is a parameter. Side effects of the wrapped function other than its result, and exceptions from it, are modelled only as an `Err` result that is passed on.

## Findings

| source | as written | input that shows it | evidently intended | confidence | as-written member | corrected member |
|---|---|---|---|---|---|---|
| cache_money/cache.py:171-173 | `keys(fn)` scans `make_key("module:name") + "*"`, with no colon after the name, so `bust_all()` deletes every entry of any function whose name extends `fn`'s | functions `add` and `addition` in one module, with an entry of `addition` stored: `add.bust_all()` deletes it | scan `module:name:*`, the scope the decorator's own keys use | not executed | Memoize.BustAllAsWrittenReachesNeighbour | Memoize.BustAllRemovesOnlyOwnEntries |
