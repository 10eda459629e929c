/** Module-name derivation: the filter and map in `findFiles` (lib/index.js). */
module Discovery {
  import opened Wrappers
  import opened Js

  /** The glob pattern `findFiles` appends to the input directory. */
  const Pattern := "!(index).{js,jsx,ts,tsx}"

  const DeclarationSuffix := ".d.ts"

  /** The suffixes matched by the regular expression `\.(js|ts)x?$`. */
  const Extensions: seq<string> := [".js", ".jsx", ".ts", ".tsx"]

  predicate EndsWith(s: string, suffix: string)
  {
    |suffix| <= |s| && s[|s| - |suffix|..] == suffix
  }

  predicate IsDeclaration(p: string)
  {
    EndsWith(p, DeclarationSuffix)
  }

  predicate HasExtension(b: string)
  {
    exists i :: 0 <= i < |Extensions| && EndsWith(b, Extensions[i])
  }

  /** `path.basename` on a POSIX path: everything after the last '/'. */
  function Basename(p: string): (r: string)
    ensures '/' !in r
    ensures EndsWith(p, r)
    ensures |r| < |p| ==> p[|p| - |r| - 1] == '/'
  {
    if |p| == 0 || p[|p| - 1] == '/' then ""
    else
      var r := Basename(p[..|p| - 1]) + [p[|p| - 1]];
      assert p == p[..|p| - 1] + [p[|p| - 1]];
      r
  }

  /** At most one of the four extensions ends a given name. */
  lemma {:induction false} ExtensionUnique(b: string, i: nat, j: nat)
    requires i < |Extensions| && j < |Extensions|
    requires EndsWith(b, Extensions[i]) && EndsWith(b, Extensions[j])
    ensures i == j
  {
    var n := |b|;
    assert Extensions[i][|Extensions[i]| - 1] == b[n - 1];
    assert Extensions[j][|Extensions[j]| - 1] == b[n - 1];
    assert Extensions[i][|Extensions[i]| - 2] == b[n - 2];
    assert Extensions[j][|Extensions[j]| - 2] == b[n - 2];
    assert Extensions[i][|Extensions[i]| - 3] == b[n - 3];
    assert Extensions[j][|Extensions[j]| - 3] == b[n - 3];
  }

  /**
   * `replace(/\.(js|ts)x?$/, '')`: removes one trailing `.js`, `.jsx`, `.ts` or `.tsx`,
   * and leaves any other name unchanged.
   */
  function StripExtension(b: string): (r: string)
    ensures r <= b
    ensures HasExtension(b) ==> exists i :: 0 <= i < |Extensions| && b == r + Extensions[i]
    ensures !HasExtension(b) ==> r == b
  {
    if EndsWith(b, ".jsx") || EndsWith(b, ".tsx") then
      var r := b[..|b| - 4];
      assert EndsWith(b, Extensions[1]) || EndsWith(b, Extensions[3]);
      assert b == r + b[|b| - 4..];
      r
    else if EndsWith(b, ".js") || EndsWith(b, ".ts") then
      var r := b[..|b| - 3];
      assert EndsWith(b, Extensions[0]) || EndsWith(b, Extensions[2]);
      assert b == r + b[|b| - 3..];
      r
    else
      assert forall i :: 0 <= i < |Extensions| ==> !EndsWith(b, Extensions[i]);
      b
  }

  /** The module name of one discovered path: its extensionless basename. */
  function ModuleName(p: string): string
  {
    StripExtension(Basename(p))
  }

  /** A module name has no '/' and is the basename with its one source extension removed. */
  lemma ModuleNameShape(p: string)
    ensures '/' !in ModuleName(p)
    ensures HasExtension(Basename(p)) ==> exists i :: 0 <= i < |Extensions| && Basename(p) == ModuleName(p) + Extensions[i]
    ensures !HasExtension(Basename(p)) ==> ModuleName(p) == Basename(p)
  {
    var b := Basename(p);
    var r := StripExtension(b);
    assert forall k :: 0 <= k < |r| ==> r[k] == b[k];
  }

  /** `filter(f => !f.endsWith('.d.ts'))`. */
  function NonDeclarations(ps: seq<string>): seq<string>
  {
    if ps == [] then []
    else (if IsDeclaration(ps[0]) then [] else [ps[0]]) + NonDeclarations(ps[1..])
  }

  /** `ps.map(f)`. */
  function Map(f: string -> string, ps: seq<string>): seq<string>
  {
    if ps == [] then [] else [f(ps[0])] + Map(f, ps[1..])
  }

  /** `map(filePath => ...)`: the module name of every path, in order. */
  function StripAll(ps: seq<string>): seq<string>
  {
    Map(ModuleName, ps)
  }

  /** `map` works position by position. */
  lemma {:induction false} MapAt(f: string -> string, ps: seq<string>)
    ensures |Map(f, ps)| == |ps|
    ensures forall i :: 0 <= i < |ps| ==> Map(f, ps)[i] == f(ps[i])
  {
    if ps != [] {
      MapAt(f, ps[1..]);
    }
  }

  /** `map` distributes over concatenation. */
  lemma {:induction false} MapAppend(f: string -> string, a: seq<string>, b: seq<string>)
    ensures Map(f, a + b) == Map(f, a) + Map(f, b)
  {
    if a == [] {
      assert a + b == b;
    } else {
      assert (a + b)[1..] == a[1..] + b;
      MapAppend(f, a[1..], b);
    }
  }

  /** The filter keeps exactly the paths that are not declaration files. */
  lemma {:induction false} NonDeclarationsMembers(ps: seq<string>)
    ensures |NonDeclarations(ps)| <= |ps|
    ensures forall p :: p in NonDeclarations(ps) <==> p in ps && !IsDeclaration(p)
  {
    if ps != [] {
      NonDeclarationsMembers(ps[1..]);
      assert ps == [ps[0]] + ps[1..];
    }
  }

  /** The map renames every path, position by position. */
  lemma StripAllAt(ps: seq<string>)
    ensures |StripAll(ps)| == |ps|
    ensures forall i :: 0 <= i < |ps| ==> StripAll(ps)[i] == ModuleName(ps[i])
  {
    MapAt(ModuleName, ps);
  }

  /** The module names `findFiles` derives from the paths the glob matched. */
  function ModuleNames(ps: seq<string>): seq<string>
  {
    StripAll(NonDeclarations(ps))
  }

  /**
   * The glob search for (pattern, cwd): the paths it matches, in traversal order, or
   * the error it rejects with.
   */
  type Glob = (string, Value) -> Result<seq<string>, Error>

  /** The pattern `findFiles` hands to the glob for an input directory. */
  function SearchPattern(inputDir: string): string
  {
    inputDir + "/" + Pattern
  }

  /**
   * `findFiles(options)`: the glob searches `<inputDir>/!(index).{js,jsx,ts,tsx}` under
   * `cwd`. `path.posix.join` throws on a non-string `inputDir`, and a rejected glob
   * rejects `findFiles` with the same error.
   */
  function FindFiles(options: Object, glob: Glob): (r: Result<seq<string>, Error>)
    ensures r.Success? <==> Get(options, "inputDir").Str? && glob(SearchPattern(Get(options, "inputDir").s), Get(options, "cwd")).Success?
    ensures !Get(options, "inputDir").Str? ==> r == Failure(TypeError("path"))
    ensures Get(options, "inputDir").Str? && glob(SearchPattern(Get(options, "inputDir").s), Get(options, "cwd")).Failure? ==>
      r == Failure(glob(SearchPattern(Get(options, "inputDir").s), Get(options, "cwd")).error)
    ensures r.Success? ==> r.value == ModuleNames(glob(SearchPattern(Get(options, "inputDir").s), Get(options, "cwd")).value)
  {
    match Get(options, "inputDir")
    case Str(dir) =>
      (match glob(SearchPattern(dir), Get(options, "cwd"))
       case Failure(e) => Failure(e)
       case Success(paths) => Success(ModuleNames(paths)))
    case _ => Failure(TypeError("path"))
  }

  /** The filter keeps relative order: it distributes over concatenation. */
  lemma {:induction false} NonDeclarationsAppend(a: seq<string>, b: seq<string>)
    ensures NonDeclarations(a + b) == NonDeclarations(a) + NonDeclarations(b)
  {
    if a == [] {
      assert a + b == b;
    } else {
      assert (a + b)[1..] == a[1..] + b;
      NonDeclarationsAppend(a[1..], b);
    }
  }

  lemma StripAllAppend(a: seq<string>, b: seq<string>)
    ensures StripAll(a + b) == StripAll(a) + StripAll(b)
  {
    MapAppend(ModuleName, a, b);
  }

  /**
   * Discovery is a homomorphism from path lists to name lists: together with the
   * one-path case below, this pins order and content down completely.
   */
  lemma ModuleNamesAppend(a: seq<string>, b: seq<string>)
    ensures ModuleNames(a + b) == ModuleNames(a) + ModuleNames(b)
  {
    NonDeclarationsAppend(a, b);
    StripAllAppend(NonDeclarations(a), NonDeclarations(b));
  }

  /** One path yields nothing if it is a declaration file, and its module name otherwise. */
  lemma ModuleNamesSingle(p: string)
    ensures ModuleNames([p]) == if IsDeclaration(p) then [] else [ModuleName(p)]
  {
    assert [p][1..] == [];
    assert NonDeclarations([p]) == if IsDeclaration(p) then [] else [p];
    assert StripAll([p]) == [ModuleName(p)] + StripAll([]);
  }

  lemma StripAllMembers(qs: seq<string>, x: string)
    ensures x in StripAll(qs) <==> exists q :: q in qs && ModuleName(q) == x
  {
    StripAllAt(qs);
    if x in StripAll(qs) {
      var i :| 0 <= i < |qs| && StripAll(qs)[i] == x;
      assert qs[i] in qs;
    }
    if exists q :: q in qs && ModuleName(q) == x {
      var q :| q in qs && ModuleName(q) == x;
      var i :| 0 <= i < |qs| && qs[i] == q;
      assert StripAll(qs)[i] == x;
    }
  }

  /** A name is discovered exactly when some non-declaration path derives it; no more names than paths. */
  lemma ModuleNamesMembers(ps: seq<string>, x: string)
    ensures |ModuleNames(ps)| <= |ps|
    ensures x in ModuleNames(ps) <==> exists p :: p in ps && !IsDeclaration(p) && ModuleName(p) == x
  {
    NonDeclarationsMembers(ps);
    StripAllAt(NonDeclarations(ps));
    StripAllMembers(NonDeclarations(ps), x);
  }

  /** No discovered name contains a '/', so each names one directory directly under `cwd`. */
  lemma ModuleNamesSlashFree(ps: seq<string>)
    ensures forall x :: x in ModuleNames(ps) ==> '/' !in x
  {
    forall x | x in ModuleNames(ps)
      ensures '/' !in x
    {
      ModuleNamesMembers(ps, x);
      var p :| p in ps && !IsDeclaration(p) && ModuleName(p) == x;
      ModuleNameShape(p);
    }
  }

  /** The example of a source tree with `src/foo.js`, a declaration file and `src/bar.ts`. */
  lemma DiscoveryExample(a: string, b: string, c: string)
    requires a == "src/foo.js" && b == "src/types.d.ts" && c == "src/bar.ts"
    ensures ModuleNames([a, b, c]) == ["foo", "bar"]
  {
    FooName(a);
    DeclarationDropped(b);
    BarName(c);
    ModuleNamesTriple(a, b, c);
  }

  lemma FooName(a: string)
    requires a == "src/foo.js"
    ensures ModuleNames([a]) == ["foo"]
  {
    SourceFileName(a, "foo.js", "foo", 0);
  }

  lemma BarName(c: string)
    requires c == "src/bar.ts"
    ensures ModuleNames([c]) == ["bar"]
  {
    SourceFileName(c, "bar.ts", "bar", 2);
  }

  /** A declaration file yields no name. */
  lemma DeclarationDropped(b: string)
    requires b == "src/types.d.ts"
    ensures ModuleNames([b]) == []
  {
    assert IsDeclaration(b);
    ModuleNamesSingle(b);
  }

  /** The names of three paths are the names of each, in order. */
  lemma ModuleNamesTriple(a: string, b: string, c: string)
    ensures ModuleNames([a, b, c]) == ModuleNames([a]) + ModuleNames([b]) + ModuleNames([c])
  {
    ModuleNamesAppend([a, b], [c]);
    ModuleNamesAppend([a], [b]);
    assert [a, b] + [c] == [a, b, c];
    assert [a] + [b] == [a, b];
  }

  lemma SourceFileName(p: string, b: string, stem: string, i: nat)
    requires i < |Extensions| && p == "src/" + b && b == stem + Extensions[i] && '/' !in b
    requires !IsDeclaration(p)
    ensures ModuleNames([p]) == [stem]
  {
    NameOfSourceFile(p, b, stem, i);
    ModuleNamesSingle(p);
  }

  /** The module name of `src/<stem><ext>` for a slash-free stem. */
  lemma {:induction false} NameOfSourceFile(p: string, b: string, stem: string, i: nat)
    requires i < |Extensions| && p == "src/" + b && b == stem + Extensions[i] && '/' !in b
    ensures ModuleName(p) == stem
  {
    var r := Basename(p);
    assert r == p[|p| - |r|..];
    assert Basename(p) == b;
    assert EndsWith(b, Extensions[i]);
    ModuleNameShape(p);
    var j :| 0 <= j < |Extensions| && b == ModuleName(p) + Extensions[j];
    assert EndsWith(b, Extensions[j]);
    ExtensionUnique(b, i, j);
  }
}
