/** Key construction: the engine's namespace prefix, the per-call keys the
    decorator builds (`module:name:digest`), the default digest of the call
    arguments, and the scan prefixes that listing and busting use. */
module KeyBuilder {
  import opened Python

  predicate StartsWith(s: string, p: string) {
    |p| <= |s| && s[..|p|] == p
  }

  /** Python truthiness of the optional prefix: None and "" both mean "no prefix". */
  predicate HasPrefix(prefix: Option<string>) {
    prefix.Some? && prefix.value != ""
  }

  /** `CacheMoney.make_key` on one text key: a prefix adds itself and one
      colon in front, nothing else changes length. */
  function MakeKey(prefix: Option<string>, key: string): (r: string)
    ensures |r| == (if HasPrefix(prefix) then |prefix.value| + 1 else 0) + |key|
  {
    if HasPrefix(prefix) then prefix.value + ":" + key else key
  }

  /** `CacheMoney.make_key` on a list of text keys: the same rule, element by element, in order. */
  function MakeKeys(prefix: Option<string>, keys: seq<string>): (r: seq<string>)
    ensures |r| == |keys|
    ensures forall i :: 0 <= i < |keys| ==> r[i] == MakeKey(prefix, keys[i])
  {
    if keys == [] then [] else [MakeKey(prefix, keys[0])] + MakeKeys(prefix, keys[1..])
  }

  /** Without a prefix a key is left alone; with one it lands in the prefix's namespace. */
  lemma MakeKeyShape(prefix: Option<string>, key: string)
    ensures !HasPrefix(prefix) ==> MakeKey(prefix, key) == key
    ensures HasPrefix(prefix) ==>
      StartsWith(MakeKey(prefix, key), prefix.value + ":") &&
      MakeKey(prefix, key)[|prefix.value| + 1..] == key
  {
  }

  /** Prefixing commutes with appending a suffix: the key of `a + b` is the key of `a` followed by `b`.
      This is why scanning for `make_key(x) + "*"` finds the keys built from `x + ...`. */
  lemma MakeKeyAppend(prefix: Option<string>, a: string, b: string)
    ensures MakeKey(prefix, a + b) == MakeKey(prefix, a) + b
  {
    if HasPrefix(prefix) {
      assert prefix.value + ":" + (a + b) == (prefix.value + ":" + a) + b;
    }
  }

  /** Under one prefix, different keys stay different. */
  lemma MakeKeyInjective(prefix: Option<string>, a: string, b: string)
    requires MakeKey(prefix, a) == MakeKey(prefix, b)
    ensures a == b
  {
    MakeKeyShape(prefix, a);
    MakeKeyShape(prefix, b);
  }

  /** Under one prefix, one key extends another exactly when the unprefixed keys do. */
  lemma MakeKeyStartsWith(prefix: Option<string>, key: string, scope: string)
    ensures StartsWith(MakeKey(prefix, key), MakeKey(prefix, scope)) <==> StartsWith(key, scope)
  {
    if HasPrefix(prefix) {
      var h := prefix.value + ":";
      assert MakeKey(prefix, key) == h + key;
      assert MakeKey(prefix, scope) == h + scope;
      if StartsWith(h + key, h + scope) {
        assert key[..|scope|] == (h + key)[|h|..|h| + |scope|];
        assert scope == (h + scope)[|h|..];
      }
      if StartsWith(key, scope) {
        assert (h + key)[..|h + scope|] == h + key[..|scope|];
      }
    }
  }

  predicate ColonFree(s: string) {
    forall i :: 0 <= i < |s| ==> s[i] != ':'
  }

  /** The function a decorator wraps, identified by its module's `__name__`
      and its own `__name__`. */
  datatype FunctionId = FunctionId(moduleName: string, name: string)

  /** Dotted module paths and Python identifiers never contain a colon. */
  predicate WellNamed(f: FunctionId) {
    ColonFree(f.moduleName) && ColonFree(f.name)
  }

  function QualifiedName(f: FunctionId): (r: string) {
    f.moduleName + ":" + f.name
  }

  /** The decorator's `make_key`: `module:name:` followed by the key function's digest. */
  function FunctionKey(f: FunctionId, digest: string): (r: string) {
    QualifiedName(f) + ":" + digest
  }

  /** The part of the key space that holds one function's entries (what `keys(fn)` should scan). */
  function OwnScope(f: FunctionId): (r: string) {
    QualifiedName(f) + ":"
  }

  /** The function part of the scan pattern that `keys` builds: "" lists the
      whole namespace, otherwise the function's own scope. */
  function FunctionScope(target: Option<FunctionId>): (r: string) {
    if target.Some? then OwnScope(target.value) else ""
  }

  /** The prefix `keys` scans for (the pattern is this followed by `*`). */
  function ScanPrefix(prefix: Option<string>, target: Option<FunctionId>): (r: string) {
    MakeKey(prefix, FunctionScope(target))
  }

  /** The function part of the scan pattern as the source writes it: the
      qualified name with no closing colon. */
  function FunctionScopeAsWritten(target: Option<FunctionId>): (r: string) {
    if target.Some? then QualifiedName(target.value) else ""
  }

  function ScanPrefixAsWritten(prefix: Option<string>, target: Option<FunctionId>): (r: string) {
    MakeKey(prefix, FunctionScopeAsWritten(target))
  }

  /** The default key function `_key_fn`: a digest of the pickled `(args, kwargs)`.
      `md5` stands for `hashlib.md5(...).hexdigest()`. */
  function KeyDigest(md5: Pickled -> string, c: CallArgs): (r: Result<string>)
    ensures r.Ok? <==> Picklable(ArgsValue(c))
    ensures r.Ok? ==> r.value == md5(Pickled(ArgsValue(c)))
  {
    match Dumps(ArgsValue(c))
    case None => Err(PicklingError)
    case Some(p) => Ok(md5(p))
  }

  /** Two calls share a default digest only if their arguments are equal or MD5 collides. */
  lemma KeyDigestSeparates(md5: Pickled -> string, c1: CallArgs, c2: CallArgs)
    ensures KeyDigest(md5, c1).Ok? && KeyDigest(md5, c1) == KeyDigest(md5, c2) ==>
      c1 == c2 || (Pickled(ArgsValue(c1)) != Pickled(ArgsValue(c2)) &&
                   md5(Pickled(ArgsValue(c1))) == md5(Pickled(ArgsValue(c2))))
  {
    if KeyDigest(md5, c1).Ok? && KeyDigest(md5, c1) == KeyDigest(md5, c2) &&
       Pickled(ArgsValue(c1)) == Pickled(ArgsValue(c2)) {
      ArgsValueInjective(c1, c2);
    }
  }

  /** Index of the first colon, or the length when there is none. */
  function ColonIndex(s: string): (r: nat) {
    if s == [] then 0 else if s[0] == ':' then 0 else 1 + ColonIndex(s[1..])
  }

  lemma {:induction false} ColonIndexAt(a: string, b: string)
    requires ColonFree(a)
    ensures ColonIndex(a + ":" + b) == |a|
  {
    if a != [] {
      assert (a + ":" + b)[1..] == a[1..] + ":" + b;
      ColonIndexAt(a[1..], b);
    }
  }

  /** A string splits at its first colon in one way only. */
  lemma ColonSplit(a: string, b: string, c: string, d: string)
    requires ColonFree(a) && ColonFree(c)
    requires a + ":" + b == c + ":" + d
    ensures a == c && b == d
  {
    ColonIndexAt(a, b);
    ColonIndexAt(c, d);
    var s := a + ":" + b;
    assert a == s[..|a|];
    assert b == s[|a| + 1..];
  }

  /** Keys of well-named functions never collide: the key determines both the
      function and the digest. */
  lemma FunctionKeyInjective(f: FunctionId, d: string, g: FunctionId, e: string)
    requires WellNamed(f) && WellNamed(g)
    requires FunctionKey(f, d) == FunctionKey(g, e)
    ensures f == g && d == e
  {
    assert FunctionKey(f, d) == f.moduleName + ":" + (f.name + ":" + d);
    assert FunctionKey(g, e) == g.moduleName + ":" + (g.name + ":" + e);
    ColonSplit(f.moduleName, f.name + ":" + d, g.moduleName, g.name + ":" + e);
    ColonSplit(f.name, d, g.name, e);
  }

  /** Under one engine prefix, distinct (module, name, digest) triples with
      colon-free names are stored under distinct keys. */
  lemma FunctionKeyDistinct(prefix: Option<string>, f: FunctionId, d: string, g: FunctionId, e: string)
    requires WellNamed(f) && WellNamed(g) && (f, d) != (g, e)
    ensures MakeKey(prefix, FunctionKey(f, d)) != MakeKey(prefix, FunctionKey(g, e))
  {
    if MakeKey(prefix, FunctionKey(f, d)) == MakeKey(prefix, FunctionKey(g, e)) {
      MakeKeyInjective(prefix, FunctionKey(f, d), FunctionKey(g, e));
      FunctionKeyInjective(f, d, g, e);
    }
  }

  /** Every key the decorator builds for `f` lies in `f`'s scope, under any prefix. */
  lemma FunctionKeyInScope(prefix: Option<string>, f: FunctionId, d: string)
    ensures StartsWith(MakeKey(prefix, FunctionKey(f, d)), ScanPrefix(prefix, Some(f)))
  {
    MakeKeyAppend(prefix, OwnScope(f), d);
  }

  /** The scope of a well-named function holds the keys of no other well-named function. */
  lemma OwnScopeIsolated(prefix: Option<string>, f: FunctionId, g: FunctionId, d: string)
    requires WellNamed(f) && WellNamed(g)
    requires StartsWith(MakeKey(prefix, FunctionKey(g, d)), ScanPrefix(prefix, Some(f)))
    ensures f == g
  {
    MakeKeyStartsWith(prefix, FunctionKey(g, d), OwnScope(f));
    var s := FunctionKey(g, d);
    var rest := s[|OwnScope(f)|..];
    assert s == OwnScope(f) + rest;
    FunctionKeyInjective(f, rest, g, d);
  }

  /** The scope the source scans for `add` also holds the keys of `addition`
      in the same module, so `add.bust_all()` reaches `addition`'s entries. */
  lemma AsWrittenScopeOverlaps(prefix: Option<string>, moduleName: string, d: string)
    requires ColonFree(moduleName)
    ensures var add, addition := FunctionId(moduleName, "add"), FunctionId(moduleName, "addition");
      WellNamed(add) && WellNamed(addition) && add != addition &&
      StartsWith(MakeKey(prefix, FunctionKey(addition, d)), ScanPrefixAsWritten(prefix, Some(add)))
  {
    var add, addition := FunctionId(moduleName, "add"), FunctionId(moduleName, "addition");
    assert add.name != addition.name by { assert |add.name| != |addition.name|; }
    var k := FunctionKey(addition, d);
    assert k == QualifiedName(add) + ("ition:" + d);
    MakeKeyAppend(prefix, QualifiedName(add), "ition:" + d);
  }
}
