/** Python values as the cache sees them, the exceptions it raises or
    swallows, and `pickle` reduced to what the cache relies on: a value is
    either refused or serialised so that loading gives the value back. */
module Python {

  datatype Option<+T> = None | Some(value: T)

  /** The exceptions the cache raises, swallows or lets through. */
  datatype Exception =
    | AttributeError        // a store command on a connection that was never set up (`conn` is None)
    | RedisError            // the store refused a command or could not be reached
    | TypeError             // joining the text prefix with a byte-string key
    | PicklingError         // `pickle.dumps` refused a value
    | Raised(what: string)  // raised by code outside the cache: a wrapped function or a custom key function

  datatype Result<+T> = Ok(value: T) | Err(error: Exception)

  /** The values a cached function takes and returns. `PyOpaque` stands for
      the objects `pickle` refuses (lambdas, locks, open sockets). */
  datatype PyValue =
    | PyNone
    | PyBool(b: bool)
    | PyInt(i: int)
    | PyStr(s: string)
    | PyTuple(items: seq<PyValue>)
    | PyList(items: seq<PyValue>)
    | PyDict(pairs: seq<(PyValue, PyValue)>)  // in insertion order, which pickle keeps
    | PyOpaque(typeName: string)

  /** A value `pickle.dumps` accepts: nothing opaque anywhere inside it. */
  predicate Picklable(v: PyValue) {
    match v
    case PyOpaque(_) => false
    case PyTuple(items) => forall i :: 0 <= i < |items| ==> Picklable(items[i])
    case PyList(items) => forall i :: 0 <= i < |items| ==> Picklable(items[i])
    case PyDict(pairs) =>
      forall i :: 0 <= i < |pairs| ==> Picklable(pairs[i].0) && Picklable(pairs[i].1)
    case _ => true
  }

  /** The bytes `pickle.dumps` produces, abstracted to the value they encode. */
  datatype Pickled = Pickled(value: PyValue)

  /** `pickle.dumps`: None when pickling raises. */
  function Dumps(v: PyValue): (r: Option<Pickled>) {
    if Picklable(v) then Some(Pickled(v)) else None
  }

  /** `pickle.loads`. */
  function Loads(p: Pickled): (r: PyValue) {
    p.value
  }

  /** Loading what was dumped gives the value back, and dumping fails
      exactly on the values pickle refuses. */
  lemma DumpsLoads(v: PyValue)
    ensures Dumps(v).Some? <==> Picklable(v)
    ensures Dumps(v).Some? ==> Loads(Dumps(v).value) == v
  {
  }

  /** The positional and keyword arguments of one call, keywords in the
      order the caller wrote them. */
  datatype CallArgs = CallArgs(args: seq<PyValue>, kwargs: seq<(string, PyValue)>)

  /** The keyword arguments as the dict `**kwargs` builds. */
  function KwargsDict(kwargs: seq<(string, PyValue)>): (r: seq<(PyValue, PyValue)>)
    ensures |r| == |kwargs|
    ensures forall i :: 0 <= i < |kwargs| ==> r[i] == (PyStr(kwargs[i].0), kwargs[i].1)
  {
    if kwargs == [] then [] else [(PyStr(kwargs[0].0), kwargs[0].1)] + KwargsDict(kwargs[1..])
  }

  /** The tuple `(args, kwargs)` that the default key function pickles. */
  function ArgsValue(c: CallArgs): (r: PyValue) {
    PyTuple([PyTuple(c.args), PyDict(KwargsDict(c.kwargs))])
  }

  /** Different calls give different argument tuples, so their pickles differ. */
  lemma ArgsValueInjective(c1: CallArgs, c2: CallArgs)
    requires ArgsValue(c1) == ArgsValue(c2)
    ensures c1 == c2
  {
    var d1, d2 := KwargsDict(c1.kwargs), KwargsDict(c2.kwargs);
    assert PyDict(d1) == ArgsValue(c1).items[1];
    assert d1 == d2;
    assert |c1.kwargs| == |c2.kwargs|;
    forall i | 0 <= i < |c1.kwargs|
      ensures c1.kwargs[i] == c2.kwargs[i]
    {
      assert d1[i] == d2[i];
    }
  }

  /** The arguments can be pickled exactly when every argument can. */
  lemma ArgsPicklable(c: CallArgs)
    ensures Picklable(ArgsValue(c)) <==>
      (forall i :: 0 <= i < |c.args| ==> Picklable(c.args[i])) &&
      (forall j :: 0 <= j < |c.kwargs| ==> Picklable(c.kwargs[j].1))
  {
    var d := KwargsDict(c.kwargs);
    var items := [PyTuple(c.args), PyDict(d)];
    assert ArgsValue(c) == PyTuple(items);
    assert Picklable(PyTuple(items)) <==> Picklable(items[0]) && Picklable(items[1]);
    assert Picklable(PyDict(d)) <==> forall j :: 0 <= j < |c.kwargs| ==> Picklable(c.kwargs[j].1) by {
      forall j | 0 <= j < |d| ensures Picklable(d[j].0) { assert d[j].0 == PyStr(c.kwargs[j].0); }
    }
  }
}
