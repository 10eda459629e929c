/** Option merging: `withDefaults` in lib/index.js. */
module Defaults {
  import opened Wrappers
  import opened Js

  const InputDirDefault := "src"
  const CwdDefault := "."

  /** The additional defaults the create path passes: `{ cjsDir: 'lib', esmDir: 'es' }`. */
  const CreateDefaults: Object := map["cjsDir" := Str("lib"), "esmDir" := Str("es")]

  /** The clean path passes no additional defaults. */
  const CleanDefaults: Object := map[]

  /**
   * The working directory after the parameter pattern `{ cwd = '.' }`: the default
   * applies only to `undefined`, and `path.resolve` throws on anything but a string.
   */
  function CwdArgument(input: Object): (r: Result<string, Error>)
    ensures r.Success? <==> (Get(input, "cwd").Undefined? || Get(input, "cwd").Str?)
    ensures Get(input, "cwd").Undefined? ==> r == Success(CwdDefault)
    ensures Get(input, "cwd").Str? ==> r == Success(Get(input, "cwd").s)
    ensures r.Failure? ==> r.error.TypeError?
  {
    match Get(input, "cwd")
    case Undefined => Success(CwdDefault)
    case Str(s) => Success(s)
    case _ => Failure(TypeError("paths[1]"))
  }

  /**
   * `withDefaults(input, additional)`: the object
   * `{ inputDir: 'src', cwd: resolve(cwd), ...additional, ...rest }`, where `rest` is
   * the caller's object without `cwd`. `resolve` stands for `path.resolve(process.cwd(), .)`.
   */
  function WithDefaults(input: Object, additional: Object, resolve: string -> string): (r: Result<Object, Error>)
    ensures r.Failure? <==> CwdArgument(input).Failure?
    ensures r.Failure? ==> r.error == CwdArgument(input).error
    ensures r.Success? ==> forall k :: k in r.value <==> (k == "inputDir" || k == "cwd" || k in additional || k in input)
    // the caller's own value wins over every default, except for `cwd`
    ensures r.Success? ==> forall k :: k in input && k != "cwd" ==> r.value[k] == input[k]
    // an additional default wins over the built-in ones
    ensures r.Success? ==> forall k :: k in additional && (k !in input || k == "cwd") ==> r.value[k] == additional[k]
    ensures r.Success? && "inputDir" !in input && "inputDir" !in additional ==> r.value["inputDir"] == Str(InputDirDefault)
    // `cwd` is always replaced by its resolved form
    ensures r.Success? && "cwd" !in additional ==> r.value["cwd"] == Str(resolve(CwdArgument(input).value))
  {
    match CwdArgument(input)
    case Failure(e) => Failure(e)
    case Success(cwd) =>
      var rest := input - {"cwd"};
      Success(map["inputDir" := Str(InputDirDefault), "cwd" := Str(resolve(cwd))] + additional + rest)
  }

  /** The create path: `inputDir` is 'src', `cjsDir` 'lib' and `esmDir` 'es' unless the caller supplies them. */
  lemma CreatePathDefaults(input: Object, resolve: string -> string)
    requires CwdArgument(input).Success?
    ensures WithDefaults(input, CreateDefaults, resolve).Success?
    ensures var o := WithDefaults(input, CreateDefaults, resolve).value;
      && Get(o, "inputDir") == (if "inputDir" in input then input["inputDir"] else Str(InputDirDefault))
      && Get(o, "cjsDir") == (if "cjsDir" in input then input["cjsDir"] else Str("lib"))
      && Get(o, "esmDir") == (if "esmDir" in input then input["esmDir"] else Str("es"))
      && Get(o, "cwd") == Str(resolve(CwdArgument(input).value))
      && (forall k :: k in input && k != "cwd" ==> Get(o, k) == input[k])
  {
  }

  /** The clean path and the create path agree on the two options discovery reads. */
  lemma DiscoveryOptionsAgree(input: Object, resolve: string -> string)
    ensures WithDefaults(input, CreateDefaults, resolve).Success? == WithDefaults(input, CleanDefaults, resolve).Success?
    ensures WithDefaults(input, CreateDefaults, resolve).Success? ==>
      var c := WithDefaults(input, CreateDefaults, resolve).value;
      var d := WithDefaults(input, CleanDefaults, resolve).value;
      Get(c, "inputDir") == Get(d, "inputDir") && Get(c, "cwd") == Get(d, "cwd") && Get(c, "cwd").Str?
  {
  }

  /** Without a caller-supplied `cwd`, the working directory is the resolved form of '.'. */
  lemma CwdDefaultsToDot(input: Object, additional: Object, resolve: string -> string)
    requires "cwd" !in input && "cwd" !in additional
    ensures WithDefaults(input, additional, resolve).Success?
    ensures Get(WithDefaults(input, additional, resolve).value, "cwd") == Str(resolve("."))
  {
  }
}
