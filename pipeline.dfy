/** The create and clean runs: `cherryPick` and `clean` (lib/index.js). */
module Pipeline {
  import opened Wrappers
  import opened Js
  import opened Paths
  import opened Defaults
  import opened Discovery
  import opened PackageName
  import opened Proxy
  import opened FileTree

  /**
   * The calls the core makes into code outside it: `path.resolve` against the process's
   * working directory, the glob search (pattern, cwd), the upward package.json search,
   * and the `stat`-based regular-file check.
   */
  datatype Host = Host(
    resolve: string -> string,
    glob: Glob,
    readPkgUp: Lookup,
    isFile: string -> bool)

  /** One discovered module and the descriptor text `fileProxy` yields for it. */
  datatype Job = Job(file: string, text: Result<string, Error>)

  /** The filesystem after a run and the per-file rejections, in file order. */
  datatype Outcome = Outcome(tree: Tree, errors: seq<Error>)

  function ProxyDir(cwd: string, file: string): string
  {
    Join(cwd, file)
  }

  function ManifestPath(cwd: string, file: string): string
  {
    Join(Join(cwd, file), "package.json")
  }

  /** The two paths the create step for `file` may change. */
  predicate Owns(cwd: string, file: string, p: string)
  {
    p == ProxyDir(cwd, file) || p == ManifestPath(cwd, file)
  }

  /**
   * The create step for one file: `mkDir(proxyDir).catch(noop)`, then the descriptor
   * text, then `writeFile(proxyDir + '/package.json', text)`.
   */
  function CreateOne(t: Tree, cwd: string, job: Job): Outcome
  {
    var t1 := match MkDirOn(t, cwd, job.file) case Success(t') => t' case Failure(_) => t;
    match job.text
    case Failure(e) => Outcome(t1, [e])
    case Success(text) =>
      match WriteFileOn(t1, ProxyDir(cwd, job.file), "package.json", text)
      case Success(t2) => Outcome(t2, [])
      case Failure(e) => Outcome(t1, [e])
  }

  /** The create steps for all files, one after the other. */
  function CreateAll(t: Tree, cwd: string, jobs: seq<Job>): Outcome
    decreases |jobs|
  {
    if jobs == [] then Outcome(t, [])
    else
      var before := CreateAll(t, cwd, jobs[..|jobs| - 1]);
      var last := CreateOne(before.tree, cwd, jobs[|jobs| - 1]);
      Outcome(last.tree, before.errors + last.errors)
  }

  /** The steps for the first `i + 1` jobs are those for the first `i`, then job `i`. */
  lemma CreateAllSnoc(t: Tree, cwd: string, jobs: seq<Job>, i: nat)
    requires i < |jobs|
    ensures var before := CreateAll(t, cwd, jobs[..i]);
      var last := CreateOne(before.tree, cwd, jobs[i]);
      CreateAll(t, cwd, jobs[..i + 1]) == Outcome(last.tree, before.errors + last.errors)
  {
    assert jobs[..i + 1][..i] == jobs[..i];
  }

  function Jobs(files: seq<string>, name: Result<Value, Error>, options: Object, isFile: string -> bool): seq<Job>
  {
    seq(|files|, i requires 0 <= i < |files| => Job(files[i], ProxyText(name, options, files[i], isFile)))
  }

  /** The directories `clean` removes. */
  function Roots(cwd: string, files: seq<string>): seq<string>
  {
    seq(|files|, i requires 0 <= i < |files| => ProxyDir(cwd, files[i]))
  }

  predicate UnderAny(roots: seq<string>, p: string)
  {
    exists i :: 0 <= i < |roots| && IsUnder(roots[i], p)
  }

  /** The filesystem without the given directories and everything below them. */
  function Prune(t: Tree, roots: seq<string>): (r: Tree)
    ensures forall p :: p in r <==> p in t && !UnderAny(roots, p)
    ensures forall p :: p in r ==> r[p] == t[p]
  {
    map p | p in t && !UnderAny(roots, p) :: t[p]
  }

  /** The outcome of a whole run as the promise settles: the first rejection, or the file list. */
  function Settle(files: seq<string>, errors: seq<Error>): Result<seq<string>, Error>
  {
    if errors == [] then Success(files) else Failure(errors[0])
  }

  /**
   * `cherryPick(input)` from filesystem `t`, with the memo table `cache` and `key` the
   * identity the fresh options object gets: the result and the filesystem afterwards.
   */
  function CreateRun(t: Tree, cache: map<OptionsKey, Value>, key: OptionsKey, input: Object, host: Host): (Result<seq<string>, Error>, Tree)
  {
    match WithDefaults(input, CreateDefaults, host.resolve)
    case Failure(e) => (Failure(e), t)
    case Success(options) =>
      match FindFiles(options, host.glob)
      case Failure(e) => (Failure(e), t)
      case Success(files) =>
        var name := PkgNameOf(cache, key, options, host.readPkgUp);
        var o := CreateAll(t, Get(options, "cwd").s, Jobs(files, name, options, host.isFile));
        (Settle(files, o.errors), o.tree)
  }

  /** `clean(input)` from filesystem `t`: the result and the filesystem afterwards. */
  function CleanRun(t: Tree, input: Object, host: Host): (Result<seq<string>, Error>, Tree)
  {
    match WithDefaults(input, CleanDefaults, host.resolve)
    case Failure(e) => (Failure(e), t)
    case Success(options) =>
      match FindFiles(options, host.glob)
      case Failure(e) => (Failure(e), t)
      case Success(files) => (Success(files), Prune(t, Roots(Get(options, "cwd").s, files)))
  }

  /** `cherryPick(input)`: one proxy directory with a package.json per discovered module. */
  method CherryPick(fs: FileSystem, resolver: Resolver, input: Object, host: Host) returns (r: Result<seq<string>, Error>)
    requires resolver.Valid()
    modifies fs, resolver
    ensures resolver.Valid()
    ensures (r, fs.entries) == CreateRun(old(fs.entries), old(resolver.cache), old(resolver.nextKey), input, host)
    // a successful merge creates one fresh options object; only the per-file work consults the memo table
    ensures match WithDefaults(input, CreateDefaults, host.resolve)
      case Failure(_) =>
        resolver.nextKey == old(resolver.nextKey) && resolver.cache == old(resolver.cache) && resolver.searches == old(resolver.searches)
      case Success(options) =>
        var n := match FindFiles(options, host.glob) case Success(files) => |files| case Failure(_) => 0;
        && resolver.nextKey == old(resolver.nextKey) + 1
        && resolver.cache == (if n == 0 then old(resolver.cache) else CacheAfter(old(resolver.cache), old(resolver.nextKey), options, host.readPkgUp))
        && resolver.searches == old(resolver.searches) + RunSearches(old(resolver.cache), old(resolver.nextKey), options, host.readPkgUp, n)
  {
    var optionsOrError := WithDefaults(input, CreateDefaults, host.resolve);
    if optionsOrError.Failure? {
      return Failure(optionsOrError.error);
    }
    var options := optionsOrError.value;
    var key := resolver.NewOptionsKey();
    var filesOrError := FindFiles(options, host.glob);
    if filesOrError.Failure? {
      return Failure(filesOrError.error);
    }
    var files := filesOrError.value;
    var errors := CreateProxies(fs, resolver, key, options, Get(options, "cwd").s, files, host);
    r := Settle(files, errors);
  }

  /** The per-file work of `cherryPick`, one file after the other. */
  method CreateProxies(fs: FileSystem, resolver: Resolver, key: OptionsKey, options: Object, cwd: string, files: seq<string>, host: Host)
    returns (errors: seq<Error>)
    requires resolver.Valid() && key < resolver.nextKey
    modifies fs, resolver
    ensures resolver.Valid() && resolver.nextKey == old(resolver.nextKey)
    ensures var name := PkgNameOf(old(resolver.cache), key, options, host.readPkgUp);
      CreateAll(old(fs.entries), cwd, Jobs(files, name, options, host.isFile)) == Outcome(fs.entries, errors)
    ensures resolver.cache == if files == [] then old(resolver.cache) else CacheAfter(old(resolver.cache), key, options, host.readPkgUp)
    ensures resolver.searches == old(resolver.searches) + RunSearches(old(resolver.cache), key, options, host.readPkgUp, |files|)
  {
    ghost var t0 := fs.entries;
    ghost var c0, s0 := resolver.cache, resolver.searches;
    ghost var name := PkgNameOf(resolver.cache, key, options, host.readPkgUp);
    ghost var jobs := Jobs(files, name, options, host.isFile);
    errors := [];
    var i := 0;
    while i < |files|
      invariant 0 <= i <= |files|
      invariant resolver.Valid() && resolver.nextKey == old(resolver.nextKey)
      invariant CreateAll(t0, cwd, jobs[..i]) == Outcome(fs.entries, errors)
      invariant AfterResolutions(c0, s0, key, options, host.readPkgUp, i, resolver.cache, resolver.searches)
    {
      ResolutionAdvances(c0, s0, key, options, host.readPkgUp, i, resolver.cache, resolver.searches);
      CreateAllSnoc(t0, cwd, jobs, i);
      var stepErrors := CreateProxy(fs, resolver, key, options, cwd, files[i], host);
      errors := errors + stepErrors;
      i := i + 1;
    }
    assert jobs[..|files|] == jobs;
  }

  /**
   * The work for one file: `mkDir(proxyDir).catch(noop)`, then `fileProxy`, then
   * `writeFile` of the text into the proxy directory.
   */
  method CreateProxy(fs: FileSystem, resolver: Resolver, key: OptionsKey, options: Object, cwd: string, file: string, host: Host)
    returns (errors: seq<Error>)
    requires resolver.Valid() && key < resolver.nextKey
    modifies fs, resolver
    ensures resolver.Valid() && resolver.nextKey == old(resolver.nextKey)
    ensures var name := PkgNameOf(old(resolver.cache), key, options, host.readPkgUp);
      CreateOne(old(fs.entries), cwd, Job(file, ProxyText(name, options, file, host.isFile))) == Outcome(fs.entries, errors)
    ensures resolver.cache == CacheAfter(old(resolver.cache), key, options, host.readPkgUp)
    ensures resolver.searches == if Searches(old(resolver.cache), key, options) then old(resolver.searches) + [Get(options, "cwd")] else old(resolver.searches)
  {
    var ignored := fs.MkDir(cwd, file);
    var text := FileProxy(resolver, key, options, file, host.readPkgUp, host.isFile);
    if text.Success? {
      var err := fs.WriteFile(ProxyDir(cwd, file), "package.json", text.value);
      errors := if err.Some? then [err.value] else [];
    } else {
      errors := [text.error];
    }
  }

  /** `clean(input)`: removes the proxy directory of every discovered module. */
  method Clean(fs: FileSystem, input: Object, host: Host) returns (r: Result<seq<string>, Error>)
    modifies fs
    ensures (r, fs.entries) == CleanRun(old(fs.entries), input, host)
  {
    var optionsOrError := WithDefaults(input, CleanDefaults, host.resolve);
    if optionsOrError.Failure? {
      return Failure(optionsOrError.error);
    }
    var options := optionsOrError.value;
    var filesOrError := FindFiles(options, host.glob);
    if filesOrError.Failure? {
      return Failure(filesOrError.error);
    }
    var files := filesOrError.value;
    RemoveProxies(fs, Get(options, "cwd").s, files);
    r := Success(files);
  }

  /** The per-file work of `clean`: `rimraf` of each proxy directory, one after the other. */
  method RemoveProxies(fs: FileSystem, cwd: string, files: seq<string>)
    modifies fs
    ensures fs.entries == Prune(old(fs.entries), Roots(cwd, files))
  {
    ghost var t0 := fs.entries;
    ghost var roots := Roots(cwd, files);
    var i := 0;
    while i < |files|
      invariant 0 <= i <= |files|
      invariant fs.entries == Prune(t0, roots[..i])
    {
      assert roots[i] == ProxyDir(cwd, files[i]);
      assert roots[..i + 1] == roots[..i] + [roots[i]];
      PruneStep(t0, roots[..i], roots[i]);
      fs.Rimraf(ProxyDir(cwd, files[i]));
      i := i + 1;
    }
    assert roots[..|files|] == roots;
  }

  /** Removing one more directory from a pruned filesystem prunes that directory too. */
  lemma PruneStep(t: Tree, roots: seq<string>, root: string)
    ensures RimrafOn(Prune(t, roots), root) == Prune(t, roots + [root])
  {
    var a, b := RimrafOn(Prune(t, roots), root), Prune(t, roots + [root]);
    forall p
      ensures p in a <==> p in b
    {
      if UnderAny(roots + [root], p) {
        var i :| 0 <= i < |roots| + 1 && IsUnder((roots + [root])[i], p);
        if i < |roots| {
          assert IsUnder(roots[i], p);
        }
      }
      if UnderAny(roots, p) {
        var i :| 0 <= i < |roots| && IsUnder(roots[i], p);
        assert (roots + [root])[i] == roots[i];
      }
      if IsUnder(root, p) {
        assert (roots + [root])[|roots|] == root;
      }
    }
  }
}
