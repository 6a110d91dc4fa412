/** The `cached` decorator: the wrapper `inner` that replaces a function,
    and its companions `make_key`, `bust` and `bust_all`. The wrapped
    function itself is outside the model: each call is handed the result
    the function would give now, and a ghost log records when it runs. */
module Memoize {
  import opened Python
  import opened KeyBuilder
  import opened Redis
  import opened Engine

  /** One call of `inner`: its result, the engine afterwards, and whether
      the wrapped function ran. */
  datatype Step = Step(result: Result<PyValue>, after: State, called: bool)

  /** `inner(*args, **kwargs)` for a call whose key is `key` (an error when
      the key function raised) and whose wrapped function would give `fnResult`. */
  function CallStep(s: State, key: Result<string>, timeout: Option<int>, fnResult: Result<PyValue>): (r: Step) {
    if !s.enabled then Step(fnResult, s, true)
    else match key
      case Err(e) => Step(Err(e), s, false)
      case Ok(k) =>
        var cached := GetResult(s, k, PyNone);
        if cached != PyNone then Step(Ok(cached), s, false)
        else if fnResult.Ok? && fnResult.value != PyNone then
          Step(fnResult, SetResult(s, k, fnResult.value, timeout).after, true)
        else Step(fnResult, s, true)
  }

  /** `bust(*args, **kwargs)`: delete the entry of one call. */
  function BustStep(s: State, key: Result<string>): (r: Reply<Result<Option<nat>>>) {
    match key
    case Err(e) => Reply(Err(e), s)
    case Ok(k) => DeleteResult(s, One(Text(k)), true)
  }

  /** `bust_all()`: list the function's scope as raw keys and delete them;
      on a reachable store exactly the keys outside that scope survive. */
  function BustAllStep(s: State, f: FunctionId): (r: Reply<Result<Option<nat>>>)
    ensures !s.enabled ==> r == Reply(Ok(None), s)
    ensures s.enabled && Healthy(s) ==> r.after.conn.Some?
    ensures s.enabled && Healthy(s) ==> forall k ::
      k in Entries(r.after) <==> k in Entries(s) && !StartsWith(k, ScanPrefix(s.prefix, Some(f)))
    ensures s.enabled && Healthy(s) ==> forall k :: k in Entries(r.after) ==> Entries(r.after)[k] == Entries(s)[k]
  {
    if !s.enabled then Reply(Ok(None), s) else ClearScope(s, ScanPrefix(s.prefix, Some(f)))
  }

  /** `bust_all()` as the source writes it, scanning the qualified name with
      no closing colon: on a reachable store exactly the keys that do not
      start with `make_key("module:name")` survive. */
  function BustAllStepAsWritten(s: State, f: FunctionId): (r: Reply<Result<Option<nat>>>)
    ensures !s.enabled ==> r == Reply(Ok(None), s)
    ensures s.enabled && Healthy(s) ==> r.after.conn.Some?
    ensures s.enabled && Healthy(s) ==> forall k ::
      k in Entries(r.after) <==> k in Entries(s) && !StartsWith(k, ScanPrefixAsWritten(s.prefix, Some(f)))
    ensures s.enabled && Healthy(s) ==> forall k :: k in Entries(r.after) ==> Entries(r.after)[k] == Entries(s)[k]
  {
    if !s.enabled then Reply(Ok(None), s) else ClearScope(s, ScanPrefixAsWritten(s.prefix, Some(f)))
  }

  /** The handle `cached(key_fn, timeout)(fn)` returns. */
  class Memoized {
    const cache: CacheMoney
    const target: FunctionId
    const keyFn: CallArgs -> Result<string>
    const timeout: Option<int>
    /** The calls that reached the wrapped function, in order. */
    ghost var calls: seq<CallArgs>

    constructor (cache: CacheMoney, target: FunctionId, keyFn: CallArgs -> Result<string>, timeout: Option<int>)
      ensures this.cache == cache && this.target == target && this.keyFn == keyFn && this.timeout == timeout
      ensures calls == []
    {
      this.cache := cache;
      this.target := target;
      this.keyFn := keyFn;
      this.timeout := timeout;
      calls := [];
    }

    /** The decorator's `make_key`: every key it builds lies in the function's own scope. */
    function MakeKey(c: CallArgs): (r: Result<string>)
      ensures r.Ok? <==> keyFn(c).Ok?
      ensures r.Ok? ==> StartsWith(r.value, OwnScope(target))
    {
      match keyFn(c)
      case Ok(d) => Ok(FunctionKey(target, d))
      case Err(e) => Err(e)
    }

    /** `inner`: the wrapped function runs when the engine is off or the
        cached value is missing; a non-None result is then written back. */
    method Call(c: CallArgs, fnResult: Result<PyValue>) returns (r: Result<PyValue>)
      modifies this, cache.conn
      ensures var step := CallStep(old(cache.Abs()), MakeKey(c), timeout, fnResult);
        r == step.result && cache.Abs() == step.after &&
        calls == old(calls) + (if step.called then [c] else [])
    {
      if !cache.enabled {
        calls := calls + [c];
        return fnResult;
      }
      var key := MakeKey(c);
      if key.Err? {
        return Err(key.error);
      }
      var res := cache.Get(key.value, PyNone);
      if res != PyNone {
        return Ok(res);
      }
      calls := calls + [c];
      r := fnResult;
      if r.Ok? && r.value != PyNone {
        var stored := cache.Set(key.value, r.value, timeout);
      }
    }

    method Bust(c: CallArgs) returns (r: Result<Option<nat>>)
      modifies cache.conn
      ensures Reply(r, cache.Abs()) == BustStep(old(cache.Abs()), MakeKey(c))
    {
      var key := MakeKey(c);
      if key.Err? {
        return Err(key.error);
      }
      r := cache.Delete(One(Text(key.value)), true);
    }

    method BustAll() returns (r: Result<Option<nat>>)
      modifies cache.conn
      ensures Reply(r, cache.Abs()) == BustAllStep(old(cache.Abs()), target)
    {
      var keys := cache.Keys(Some(target), false);
      if keys.Err? {
        return Err(keys.error);
      }
      if cache.enabled {
        DeleteListed(cache.Abs(), keys.value, ScanPrefix(cache.prefix, Some(target)));
      }
      r := cache.Delete(Many(keys.value), true);
    }
  }

  // ---------------------------------------------------------------- properties

  /** With the engine off, every call reaches the wrapped function and the
      store is never touched. */
  lemma DisabledCallsThrough(s: State, key: Result<string>, timeout: Option<int>, fnResult: Result<PyValue>)
    requires !s.enabled
    ensures CallStep(s, key, timeout, fnResult) == Step(fnResult, s, true)
  {
  }

  /** The wrapped function runs exactly when the engine is off or, with a
      key, the engine reads None for it; when it runs, its result or error
      is what the caller gets, unchanged. */
  lemma CalledOnlyOnMiss(s: State, key: Result<string>, timeout: Option<int>, fnResult: Result<PyValue>)
    ensures var step := CallStep(s, key, timeout, fnResult);
      (step.called <==> !s.enabled || (key.Ok? && GetResult(s, key.value, PyNone) == PyNone)) &&
      (step.called ==> step.result == fnResult) &&
      (!step.called && s.enabled && key.Ok? ==> step.result == Ok(GetResult(s, key.value, PyNone)))
  {
  }

  /** None is not cacheable, and neither is an error: after a call that
      produced either, the engine is as before. */
  lemma NoneIsNotCached(s: State, key: Result<string>, timeout: Option<int>, fnResult: Result<PyValue>)
    requires fnResult == Ok(PyNone) || fnResult.Err?
    ensures CallStep(s, key, timeout, fnResult).after == s
  {
  }

  /** Memoization: once a call with key `k` has returned a picklable,
      non-None value on a reachable store with an acceptable expiry, the next
      call with the same key does not run the wrapped function, gives the same
      result and leaves the engine alone, whatever the function would give. */
  lemma SecondCallIsHit(s: State, k: string, timeout: Option<int>, v: PyValue, next: Result<PyValue>)
    requires s.enabled && Healthy(s)
    requires v != PyNone && Picklable(v)
    requires var t := ResolveTimeout(timeout, s.defaultTimeout); !(t.Some? && t.value < 0)
    ensures var first := CallStep(s, Ok(k), timeout, Ok(v));
      CallStep(first.after, Ok(k), timeout, next) == Step(first.result, first.after, false)
  {
    var first := CallStep(s, Ok(k), timeout, Ok(v));
    if GetResult(s, k, PyNone) == PyNone {
      SetSucceedsWhen(s, k, v, timeout);
      SetThenGet(s, k, v, timeout, PyNone);
      assert first.after == SetResult(s, k, v, timeout).after;
    }
  }

  /** `bust(args)` removes the entry for those arguments and keeps the entry
      of every other call, of this function or of any other well-named one. */
  lemma BustRemovesOnlyThatCall(s: State, f: FunctionId, d: string, g: FunctionId, e: string)
    requires s.enabled && Healthy(s) && WellNamed(f) && WellNamed(g)
    ensures var after := BustStep(s, Ok(FunctionKey(f, d))).after;
      var other := MakeKey(s.prefix, FunctionKey(g, e));
      after.conn.Some? &&
      MakeKey(s.prefix, FunctionKey(f, d)) !in Entries(after) &&
      ((f, d) != (g, e) ==>
         (other in Entries(after) <==> other in Entries(s)) &&
         (other in Entries(s) ==> Entries(after)[other] == Entries(s)[other]))
  {
    DeleteOneKey(s, Text(FunctionKey(f, d)), true);
    if (f, d) != (g, e) {
      FunctionKeyDistinct(s.prefix, f, d, g, e);
    }
  }

  /** `bust_all()` removes every entry of the function and keeps the
      entries of every other well-named function. */
  lemma BustAllRemovesOnlyOwnEntries(s: State, f: FunctionId, g: FunctionId, d: string)
    requires s.enabled && Healthy(s) && WellNamed(f) && WellNamed(g)
    ensures var after := BustAllStep(s, f).after;
      var k := MakeKey(s.prefix, FunctionKey(g, d));
      after.conn.Some? &&
      (g == f ==> k !in Entries(after)) &&
      (g != f ==> (k in Entries(after) <==> k in Entries(s)) &&
                  (k in Entries(s) ==> Entries(after)[k] == Entries(s)[k]))
  {
    var k := MakeKey(s.prefix, FunctionKey(g, d));
    if g == f {
      FunctionKeyInScope(s.prefix, f, d);
      assert k in Entries(s) ==> k in Matching(Entries(s), ScanPrefix(s.prefix, Some(f)));
    } else if StartsWith(k, ScanPrefix(s.prefix, Some(f))) {
      OwnScopeIsolated(s.prefix, f, g, d);
    }
  }

  /** With the default key function `_key_fn`, a decorated function gives two
      calls the same key only when their arguments are equal or MD5 collides
      on two different pickles; unpicklable arguments give no key at all. */
  lemma DefaultKeysSeparate(m: Memoized, md5: Pickled -> string, c1: CallArgs, c2: CallArgs)
    requires WellNamed(m.target)
    requires forall c :: m.keyFn(c) == KeyDigest(md5, c)
    ensures m.MakeKey(c1).Ok? <==> Picklable(ArgsValue(c1))
    ensures m.MakeKey(c1).Ok? && m.MakeKey(c1) == m.MakeKey(c2) ==>
      c1 == c2 || (Pickled(ArgsValue(c1)) != Pickled(ArgsValue(c2)) &&
                   md5(Pickled(ArgsValue(c1))) == md5(Pickled(ArgsValue(c2))))
  {
    var k1, k2 := m.MakeKey(c1), m.MakeKey(c2);
    if k1.Ok? && k1 == k2 {
      assert m.keyFn(c1).Ok? && m.keyFn(c2).Ok?;
      FunctionKeyInjective(m.target, m.keyFn(c1).value, m.target, m.keyFn(c2).value);
      KeyDigestSeparates(md5, c1, c2);
    }
  }

  /** As written, `bust_all()` on `add` deletes a stored entry of `addition`
      from the same module. */
  lemma BustAllAsWrittenReachesNeighbour(s: State, moduleName: string, d: string)
    requires s.enabled && Healthy(s) && ColonFree(moduleName)
    requires MakeKey(s.prefix, FunctionKey(FunctionId(moduleName, "addition"), d)) in Entries(s)
    ensures var after := BustAllStepAsWritten(s, FunctionId(moduleName, "add")).after;
      after.conn.Some? &&
      MakeKey(s.prefix, FunctionKey(FunctionId(moduleName, "addition"), d)) !in Entries(after)
  {
    AsWrittenScopeOverlaps(s.prefix, moduleName, d);
  }
}
