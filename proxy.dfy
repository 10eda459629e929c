/** Descriptor building: `fileProxy` (lib/index.js). */
module Proxy {
  import opened Wrappers
  import opened Js
  import opened Paths
  import opened PackageName

  /** The proxy package.json; `private` is always true and so is not stored, and `moduleEntry` is its `module` property. */
  datatype Descriptor = Descriptor(name: string, main: string, moduleEntry: string, types: Option<string>)

  /** The JSON values a descriptor holds. */
  datatype Json = JString(s: string) | JTrue

  /** The descriptor's properties in insertion order, which `JSON.stringify` keeps. */
  function Fields(d: Descriptor): seq<(string, Json)>
  {
    [("name", JString(d.name)), ("private", JTrue), ("main", JString(d.main)), ("module", JString(d.moduleEntry))]
    + (if d.types.Some? then [("types", JString(d.types.value))] else [])
  }

  function Keys(fields: seq<(string, Json)>): (r: seq<string>)
    ensures |r| == |fields|
    ensures forall i :: 0 <= i < |fields| ==> r[i] == fields[i].0
  {
    if fields == [] then [] else [fields[0].0] + Keys(fields[1..])
  }

  /** String escaping for `"` and `\`; other control characters are not modelled. */
  function Escape(s: string): string
  {
    if s == [] then []
    else (if s[0] == '"' || s[0] == '\\' then ['\\', s[0]] else [s[0]]) + Escape(s[1..])
  }

  function Quote(s: string): string
  {
    "\"" + Escape(s) + "\""
  }

  function RenderValue(v: Json): string
  {
    match v
    case JString(s) => Quote(s)
    case JTrue => "true"
  }

  /** The object's members, two spaces in, separated by a comma and a line break. */
  function RenderMembers(fields: seq<(string, Json)>): string
  {
    if fields == [] then ""
    else
      "  " + Quote(fields[0].0) + ": " + RenderValue(fields[0].1)
      + (if |fields| == 1 then "" else ",\n" + RenderMembers(fields[1..]))
  }

  /** `JSON.stringify(proxyPkg, null, 2) + '\n'`. */
  function Render(d: Descriptor): string
  {
    "{\n" + RenderMembers(Fields(d)) + "\n}" + "\n"
  }

  /**
   * The `types` entry, first match wins: an explicit string `typesDir` without any
   * existence check, then `<cwd>/<file>.d.ts`, then `<cwd>/<esmDir>/<file>.d.ts`.
   * `path.join(cwd, ...)` throws when `cwd` is not a string.
   */
  function TypesPath(typesDir: Value, cwd: Value, esmDir: string, file: string, isFile: string -> bool): Result<Option<string>, Error>
  {
    if typesDir.Str? then Success(Some(Join(Join("..", typesDir.s), file + ".d.ts")))
    else if !cwd.Str? then Failure(TypeError("path"))
    else if isFile(Join(cwd.s, file + ".d.ts")) then Success(Some(Join("..", file + ".d.ts")))
    else if isFile(Join(Join(cwd.s, esmDir), file + ".d.ts")) then Success(Some(Join(Join("..", esmDir), file + ".d.ts")))
    else Success(None)
  }

  /** The descriptor `fileProxy` builds once the package name is known. */
  function Build(pkgName: Value, options: Object, file: string, isFile: string -> bool): Result<Descriptor, Error>
  {
    var cjsDir, esmDir := Get(options, "cjsDir"), Get(options, "esmDir");
    if !cjsDir.Str? then Failure(TypeError("path"))
    else if !esmDir.Str? then Failure(TypeError("path"))
    else match TypesPath(Get(options, "typesDir"), Get(options, "cwd"), esmDir.s, file, isFile)
      case Failure(e) => Failure(e)
      case Success(types) =>
        Success(Descriptor(
          ToString(pkgName) + "/" + file,
          Join(Join("..", cjsDir.s), file + ".js"),
          Join(Join("..", esmDir.s), file + ".js"),
          types))
  }

  /** The text `fileProxy` resolves to, given the outcome of the package-name resolution. */
  function ProxyText(name: Result<Value, Error>, options: Object, file: string, isFile: string -> bool): Result<string, Error>
  {
    match name
    case Failure(e) => Failure(e)
    case Success(n) =>
      match Build(n, options, file, isFile)
      case Failure(e) => Failure(e)
      case Success(d) => Success(Render(d))
  }

  /**
   * `fileProxy(options, file)`: resolves the package name, builds the four fixed
   * properties and then adds `types` in place when one of the three rules applies.
   */
  method FileProxy(resolver: Resolver, key: OptionsKey, options: Object, file: string, readPkgUp: Lookup, isFile: string -> bool)
    returns (r: Result<string, Error>)
    requires resolver.Valid() && key < resolver.nextKey
    modifies resolver
    ensures resolver.Valid() && resolver.nextKey == old(resolver.nextKey)
    ensures r == ProxyText(PkgNameOf(old(resolver.cache), key, options, readPkgUp), options, file, isFile)
    ensures resolver.cache == CacheAfter(old(resolver.cache), key, options, readPkgUp)
    ensures resolver.searches == if Searches(old(resolver.cache), key, options) then old(resolver.searches) + [Get(options, "cwd")] else old(resolver.searches)
  {
    var cwd, cjsDir, esmDir, typesDir := Get(options, "cwd"), Get(options, "cjsDir"), Get(options, "esmDir"), Get(options, "typesDir");
    var name := resolver.GetPkgName(key, options, readPkgUp);
    if name.Failure? {
      return Failure(name.error);
    }
    if !cjsDir.Str? || !esmDir.Str? {
      return Failure(TypeError("path"));
    }
    var proxy := Descriptor(
      ToString(name.value) + "/" + file,
      Join(Join("..", cjsDir.s), file + ".js"),
      Join(Join("..", esmDir.s), file + ".js"),
      None);
    if typesDir.Str? {
      proxy := proxy.(types := Some(Join(Join("..", typesDir.s), file + ".d.ts")));
    } else if !cwd.Str? {
      return Failure(TypeError("path"));
    } else if isFile(Join(cwd.s, file + ".d.ts")) {
      proxy := proxy.(types := Some(Join("..", file + ".d.ts")));
    } else if isFile(Join(Join(cwd.s, esmDir.s), file + ".d.ts")) {
      proxy := proxy.(types := Some(Join(Join("..", esmDir.s), file + ".d.ts")));
    }
    r := Success(Render(proxy));
  }

  /**
   * The fields every descriptor has: `name` is `<pkgName>/<file>`, `main` and `module`
   * point at `<file>.js` in the CommonJS and ES-module directories, and `types` is the
   * first-match choice of `TypesPath`. Building fails only on a non-string directory option.
   */
  lemma AlwaysPresentFields(pkgName: Value, options: Object, file: string, isFile: string -> bool)
    ensures Build(pkgName, options, file, isFile).Success? <==>
      Get(options, "cjsDir").Str? && Get(options, "esmDir").Str? && (Get(options, "typesDir").Str? || Get(options, "cwd").Str?)
    ensures Build(pkgName, options, file, isFile).Success? ==>
      var d := Build(pkgName, options, file, isFile).value;
      && d.name == ToString(pkgName) + "/" + file
      && d.main == "../" + Get(options, "cjsDir").s + "/" + file + ".js"
      && d.moduleEntry == "../" + Get(options, "esmDir").s + "/" + file + ".js"
      && d.types == TypesPath(Get(options, "typesDir"), Get(options, "cwd"), Get(options, "esmDir").s, file, isFile).value
  {
  }

  /** The `types` entry follows the three rules in order and is absent when none applies. */
  lemma TypesFirstMatch(typesDir: Value, cwd: string, esmDir: string, file: string, isFile: string -> bool)
    ensures var t := TypesPath(typesDir, Str(cwd), esmDir, file, isFile);
      && t.Success?
      && (typesDir.Str? ==> t.value == Some("../" + typesDir.s + "/" + file + ".d.ts"))
      && (!typesDir.Str? && isFile(cwd + "/" + file + ".d.ts") ==> t.value == Some("../" + file + ".d.ts"))
      && (!typesDir.Str? && !isFile(cwd + "/" + file + ".d.ts") && isFile(cwd + "/" + esmDir + "/" + file + ".d.ts") ==>
            t.value == Some("../" + esmDir + "/" + file + ".d.ts"))
      && (!typesDir.Str? && !isFile(cwd + "/" + file + ".d.ts") && !isFile(cwd + "/" + esmDir + "/" + file + ".d.ts") ==>
            t.value == None)
  {
    if typesDir.Str? {
      assert Join(Join("..", typesDir.s), file + ".d.ts") == "../" + typesDir.s + "/" + file + ".d.ts";
    }
    assert Join(cwd, file + ".d.ts") == cwd + "/" + file + ".d.ts";
    assert Join("..", file + ".d.ts") == "../" + file + ".d.ts";
    assert Join(Join(cwd, esmDir), file + ".d.ts") == cwd + "/" + esmDir + "/" + file + ".d.ts";
    assert Join(Join("..", esmDir), file + ".d.ts") == "../" + esmDir + "/" + file + ".d.ts";
  }

  /** With a string `typesDir`, the filesystem is not consulted: `types` is the same whatever exists. */
  lemma TypesDirIgnoresFilesystem(pkgName: Value, options: Object, file: string, isFile: string -> bool, isFile': string -> bool)
    requires Get(options, "typesDir").Str?
    ensures Build(pkgName, options, file, isFile) == Build(pkgName, options, file, isFile')
  {
  }

  /** The text is one JSON object with a trailing newline, its keys in the order name, private, main, module, types. */
  lemma RenderShape(d: Descriptor)
    ensures var text := Render(d);
      && |text| >= 5 && text[..2] == "{\n" && text[|text| - 3..] == "\n}\n"
    ensures Keys(Fields(d)) == ["name", "private", "main", "module"] + (if d.types.Some? then ["types"] else [])
    ensures Fields(d)[0] == ("name", JString(d.name)) && Fields(d)[1] == ("private", JTrue)
    ensures Fields(d)[2] == ("main", JString(d.main)) && Fields(d)[3] == ("module", JString(d.moduleEntry))
    ensures d.types.Some? ==> Fields(d)[4] == ("types", JString(d.types.value))
  {
    var text := Render(d);
    assert text == "{\n" + RenderMembers(Fields(d)) + "\n}\n";
  }

  /** The descriptor for module `foo` of package `mylib` with the create-path directory defaults. */
  lemma DescriptorExample(options: Object, isFile: string -> bool)
    requires options == map["cwd" := Str("/work"), "cjsDir" := Str("lib"), "esmDir" := Str("es")]
    requires forall p :: !isFile(p)
    ensures Build(Str("mylib"), options, "foo", isFile) == Success(Descriptor("mylib/foo", "../lib/foo.js", "../es/foo.js", None))
  {
    assert Get(options, "cjsDir") == Str("lib") && Get(options, "esmDir") == Str("es");
    assert Get(options, "typesDir") == Undefined && Get(options, "cwd") == Str("/work");
    TypesFirstMatch(Undefined, "/work", "es", "foo", isFile);
    AlwaysPresentFields(Str("mylib"), options, "foo", isFile);
    assert ToString(Str("mylib")) + "/" + "foo" == "mylib/foo";
    assert "../" + "lib" + "/" + "foo" + ".js" == "../lib/foo.js";
    assert "../" + "es" + "/" + "foo" + ".js" == "../es/foo.js";
  }
}
