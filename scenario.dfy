/** The calls the repository's test suite makes, replayed stage by stage on
    the specification of the engine and the decorator: `addition` and
    `multiplication` memoized with a one-minute timeout under the prefix
    `cache_money_test`. Each lemma is one stage of the test and starts from
    the state that stage begins in, built explicitly or described by its
    requires; the stages are not chained into one run. Each step's `called`
    flag says whether the wrapped function ran, which is what the test
    counts in `executions`. The digests are parameters; all the stages need
    is that the digests of (3, 4) and (3, 7) differ. */
module Scenario {
  import opened Python
  import opened KeyBuilder
  import opened Redis
  import opened Engine
  import opened Memoize

  const Add := FunctionId("tests.test_cache", "addition")
  const Mul := FunctionId("tests.test_cache", "multiplication")
  const Minute: Option<int> := Some(60)

  /** The engine `init_cache_money` sets up for the test, over an empty store. */
  function TestEngine(): (r: State) {
    State(Some("cache_money_test"), Some(3600), true, Some(Db(map[], false)))
  }

  /** A repeated call is served from the cache, and busting (3, 4) leaves
      (3, 7) cached (test lines 38-60). */
  lemma MemoizeThenBustOne(d34: string, d37: string)
    requires d34 != d37
  {
    var s0 := TestEngine();
    var k34, k37 := FunctionKey(Add, d34), FunctionKey(Add, d37);
    assert WellNamed(Add);
    FunctionKeyDistinct(s0.prefix, Add, d34, Add, d37);

    var a1 := CallStep(s0, Ok(k34), Minute, Ok(PyInt(7)));
    assert a1.called && a1.result == Ok(PyInt(7));
    var a2 := CallStep(a1.after, Ok(k34), Minute, Ok(PyInt(7)));
    assert !a2.called && a2.result == Ok(PyInt(7)) && a2.after == a1.after;
    var a3 := CallStep(a2.after, Ok(k37), Minute, Ok(PyInt(10)));
    assert a3.called && a3.result == Ok(PyInt(10));

    var b := BustStep(a3.after, Ok(k34));
    DeleteOneKey(a3.after, Text(k34), true);
    var a4 := CallStep(b.after, Ok(k34), Minute, Ok(PyInt(7)));
    assert a4.called && a4.result == Ok(PyInt(7));
    var a5 := CallStep(a4.after, Ok(k34), Minute, Ok(PyInt(7)));
    assert !a5.called;
    var a6 := CallStep(a5.after, Ok(k37), Minute, Ok(PyInt(10)));
    assert !a6.called && a6.result == Ok(PyInt(10));
  }

  /** `addition.bust_all()` forgets both of `addition`'s entries and keeps
      `multiplication`'s: afterwards both `addition` calls run again and the
      `multiplication` call is still a hit (test lines 62-78). */
  lemma BustAllKeepsOtherFunction(s: State, d34: string, d37: string, d24: string)
    requires s.enabled && Healthy(s) && s.prefix == TestEngine().prefix
    requires MakeKey(s.prefix, FunctionKey(Mul, d24)) in Entries(s)
    requires Entries(s)[MakeKey(s.prefix, FunctionKey(Mul, d24))].payload == Pickled(PyInt(8))
  {
    var k34, k37, k24 := FunctionKey(Add, d34), FunctionKey(Add, d37), FunctionKey(Mul, d24);
    assert WellNamed(Add) && WellNamed(Mul) && Add != Mul;
    FunctionKeyDistinct(s.prefix, Add, d34, Mul, d24);
    FunctionKeyDistinct(s.prefix, Add, d37, Mul, d24);
    var b := BustAllStep(s, Add);
    BustAllRemovesOnlyOwnEntries(s, Add, Add, d34);
    BustAllRemovesOnlyOwnEntries(s, Add, Add, d37);
    BustAllRemovesOnlyOwnEntries(s, Add, Mul, d24);
    var a1 := CallStep(b.after, Ok(k34), Minute, Ok(PyInt(7)));
    assert a1.called;
    var a2 := CallStep(b.after, Ok(k37), Minute, Ok(PyInt(10)));
    assert a2.called;
    var m2 := CallStep(b.after, Ok(k24), Minute, Ok(PyInt(8)));
    assert !m2.called && m2.result == Ok(PyInt(8));
  }

  /** With the prefix set, `bust()` forgets the entries of both functions
      (test lines 80-101). */
  lemma BustEverything(d34: string, d37: string, d24: string)
    requires d34 != d37
  {
    var p := TestEngine().prefix;
    var k34, k37, k24 := FunctionKey(Add, d34), FunctionKey(Add, d37), FunctionKey(Mul, d24);
    var e7, e10, e8 := Entry(Pickled(PyInt(7)), Minute), Entry(Pickled(PyInt(10)), Minute), Entry(Pickled(PyInt(8)), Minute);
    var s := WithEntries(TestEngine(), map[MakeKey(p, k34) := e7, MakeKey(p, k37) := e10, MakeKey(p, k24) := e8]);
    assert WellNamed(Add) && WellNamed(Mul) && Add != Mul;
    FunctionKeyDistinct(p, Add, d34, Add, d37);
    FunctionKeyDistinct(p, Add, d34, Mul, d24);
    FunctionKeyDistinct(p, Add, d37, Mul, d24);

    // the three calls of the test's lines 83-90 are hits
    assert !CallStep(s, Ok(k34), Minute, Ok(PyInt(7))).called;
    assert !CallStep(s, Ok(k37), Minute, Ok(PyInt(10))).called;
    assert !CallStep(s, Ok(k24), Minute, Ok(PyInt(8))).called;

    var b1 := BustResult(s, false);
    BustClearsNamespace(s, false, MakeKey(p, k34));
    BustClearsNamespace(s, false, MakeKey(p, k37));
    BustClearsNamespace(s, false, MakeKey(p, k24));
    assert CallStep(b1.after, Ok(k34), Minute, Ok(PyInt(7))).called;
    assert CallStep(b1.after, Ok(k37), Minute, Ok(PyInt(10))).called;
    assert CallStep(b1.after, Ok(k24), Minute, Ok(PyInt(8))).called;
  }

  /** Once the prefix is dropped (test lines 104-125, over a store the
      previous `bust()` emptied), `bust()` is refused and only
      `bust(force=True)` clears. */
  lemma BustWithoutPrefix(d34: string, d37: string, d24: string)
    requires d34 != d37
  {
    var k34, k37, k24 := FunctionKey(Add, d34), FunctionKey(Add, d37), FunctionKey(Mul, d24);
    assert WellNamed(Add) && WellNamed(Mul) && Add != Mul;
    FunctionKeyDistinct(None, Add, d34, Add, d37);
    FunctionKeyDistinct(None, Add, d34, Mul, d24);
    FunctionKeyDistinct(None, Add, d37, Mul, d24);
    var u := TestEngine().(prefix := None);
    var a1 := CallStep(u, Ok(k34), Minute, Ok(PyInt(7)));
    assert a1.called;
    var a2 := CallStep(a1.after, Ok(k37), Minute, Ok(PyInt(10)));
    assert a2.called;
    var m1 := CallStep(a2.after, Ok(k24), Minute, Ok(PyInt(8)));
    assert m1.called;
    var b2 := BustResult(m1.after, false);
    assert b2 == Reply(Ok(None), m1.after);
    var a3 := CallStep(b2.after, Ok(k34), Minute, Ok(PyInt(7)));
    assert !a3.called;
    var b3 := BustResult(a3.after, true);
    ForcedBustEmptiesStore(a3.after);
    var a4 := CallStep(b3.after, Ok(k34), Minute, Ok(PyInt(7)));
    assert a4.called;
  }

  /** With the switch off, every call runs the function and the primitives
      answer as if there were no store; switched on again with no timeout
      and no prefix, `set` then `get` gives the value back (test lines 127-156). */
  lemma DisabledThenPlainSet(s: State, k34: string)
    requires Healthy(s)
  {
    var off := s.(enabled := false);
    var a1 := CallStep(off, Ok(k34), Minute, Ok(PyInt(7)));
    var a2 := CallStep(a1.after, Ok(k34), Minute, Ok(PyInt(7)));
    assert a1.called && a2.called && a2.after == off;
    assert GetResult(off, k34, PyNone) == PyNone;
    assert SetResult(off, k34, PyInt(7), None) == Reply(true, off);
    assert DeleteResult(off, One(Text(k34)), false).result == Ok(None);
    assert BustResult(off, false).result == Ok(None);
    assert KeysReply(off, None, true, Ok([]));

    var on := s.(enabled := true, defaultTimeout := None, prefix := None);
    var w := SetResult(on, "pompatus", PyStr("puppetutes"), None);
    assert w.result;
    SetThenGet(on, "pompatus", PyStr("puppetutes"), None, PyNone);
    assert GetResult(w.after, "pompatus", PyNone) == PyStr("puppetutes");
    assert Entries(w.after)["pompatus"].ttl == None;
    assert MakeKeys(Some("cache-money-test"), ["pompatus"]) == ["cache-money-test" + ":" + "pompatus"];
  }
}
