/** The Option and Result datatypes used throughout the model. */
module Wrappers {
  datatype Option<+T> = None | Some(value: T)

  datatype Result<+R, +E> = Success(value: R) | Failure(error: E)
}

/** The slice of JavaScript's value semantics that cherry-pick's options rely on. */
module Js {

  /** A property value of an options object. Numbers and nested objects are not modelled. */
  datatype Value = Undefined | Null | Bool(b: bool) | Str(s: string)

  /**
   * An options object: its own enumerable properties. Reading a key that is not
   * present yields `undefined`; a key may also be present with the value `undefined`.
   */
  type Object = map<string, Value>

  function Get(o: Object, key: string): Value
  {
    if key in o then o[key] else Undefined
  }

  /** `v != null` with loose equality is false exactly for `null` and `undefined`. */
  predicate IsNullish(v: Value)
  {
    v == Undefined || v == Null
  }

  /** The string conversion a template literal or `+` with a string applies. */
  function ToString(v: Value): string
  {
    match v
    case Undefined => "undefined"
    case Null => "null"
    case Bool(b) => if b then "true" else "false"
    case Str(s) => s
  }

  /** Errors the core can reject with. */
  datatype Error =
    | TypeError(argument: string)         // a non-string path argument reached `path`
    | NoPackageName(root: string)         // no `name` option and no package.json found
    | FsError(code: string, path: string) // a failed filesystem call

  const NoPackageNamePrefix := "Could not determine package name. No `name` option was passed and no package.json was found relative to: "

  function Message(e: Error): (m: string)
    ensures e.NoPackageName? ==> |e.root| <= |m| && m[|m| - |e.root|..] == e.root
  {
    match e
    case TypeError(argument) => "The \"" + argument + "\" argument must be of type string"
    case NoPackageName(root) => NoPackageNamePrefix + root
    case FsError(code, path) => code + ": " + path
  }
}

/** Path joining for the simple, slash-free segments the model assumes. */
module Paths {

  /** `path.join(a, b)` for a non-empty `a` and a segment `b`; normalisation is not modelled. */
  function Join(a: string, b: string): string
  {
    a + "/" + b
  }

  /** `p` is `root` itself or lies somewhere below it. */
  predicate IsUnder(root: string, p: string)
  {
    p == root || (|root| + 1 <= |p| && p[..|root| + 1] == root + "/")
  }

  /** Everything after `a + "/"` in `Join(a, b)` is `b`. */
  lemma JoinSuffix(a: string, b: string)
    ensures Join(a, b)[|a| + 1..] == b
    ensures Join(a, b)[..|a| + 1] == a + "/"
  {
  }

  lemma {:induction false} JoinCancel(a: string, x: string, y: string)
    requires Join(a, x) == Join(a, y)
    ensures x == y
  {
    JoinSuffix(a, x);
    JoinSuffix(a, y);
  }

  /** A joined path lies under its first part, and so does anything joined below it. */
  lemma JoinIsUnder(a: string, b: string, c: string)
    ensures IsUnder(a, Join(a, b))
    ensures IsUnder(a, Join(Join(a, b), c))
  {
    JoinSuffix(a, b);
    var p := Join(Join(a, b), c);
    assert p == a + "/" + (b + "/" + c);
    JoinSuffix(a, b + "/" + c);
  }

  /**
   * For a segment without '/', the path `Join(a, x)` is never `Join(Join(a, y), z)`:
   * a proxy directory is never another proxy directory's package.json.
   */
  lemma {:induction false} JoinNotNested(a: string, x: string, y: string, z: string)
    requires '/' !in x
    ensures Join(a, x) != Join(Join(a, y), z)
  {
    if Join(a, x) == Join(Join(a, y), z) {
      assert Join(Join(a, y), z) == Join(a, y + "/" + z);
      JoinCancel(a, x, y + "/" + z);
    }
  }

  /** Two paths joined below `a` with two different segments differ. */
  lemma {:induction false} JoinNestedCancel(a: string, x: string, y: string, z: string)
    requires Join(Join(a, x), z) == Join(Join(a, y), z)
    ensures x == y
  {
    var p := Join(Join(a, x), z);
    assert |x| == |y|;
    assert p[..|Join(a, x)|] == Join(a, x);
    assert Join(Join(a, y), z)[..|Join(a, y)|] == Join(a, y);
    JoinCancel(a, x, y);
  }
}
