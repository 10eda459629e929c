# cherry-pick: proxy package directories, modelled in Dafny

cherry-pick makes every source module of a package importable on its own. It does this by creating one
*proxy directory* per module, inside the working directory (`cwd`). `cherryPick(options)` runs a glob over
`<inputDir>/!(index).{js,jsx,ts,tsx}` and drops declaration files (`.d.ts`). It reduces each remaining
path to its extensionless basename. Then, for each name, it makes `<cwd>/<name>/` and writes a
`package.json` into it. That file gives the module's name (`<pkgName>/<name>`), `private: true`,
`main` (the CommonJS build) and `module` (the ES-module build), plus `types` when `typesDir` is given
or a declaration file is found. `clean(options)` does the same discovery and removes each `<cwd>/<name>` directory
recursively. Both resolve to the list of discovered names.

The model follows `lib/index.js` one function at a time:

- `Defaults` (defaults.dfy): options merging (`withDefaults`). A JavaScript options object is a
  `map<string, Value>`. Object spread is map union where later sources win. A `cwd` that is neither
  undefined nor a string is the `TypeError` that `path.resolve` throws.
- `Discovery` (discovery.dfy): the filter and map of `findFiles`. `path.basename` and the
  `\.(js|ts)x?$` replacement are written out on strings. The glob itself is an input function.
- `PackageName` (package_name.dfy): `getPkgName`. The module-level `pkgCache` WeakMap is the `cache`
  field of a `Resolver` class, keyed by the identity of the options object. The class also logs every
  upward package.json search it starts.
- `Proxy` (proxy.dfy): `fileProxy`. It builds the descriptor, applies the first-match rule for
  `types`, and renders it the way `JSON.stringify(proxyPkg, null, 2) + '\n'` does.
- `FileTree` (file_tree.dfy): an abstract filesystem, a map from paths to directories and files.
  It has the effects and error codes of `fs.mkdir`, `fs.writeFile` and `rimraf`.
- `Pipeline` (pipeline.dfy): the `cherryPick` and `clean` methods. Each has a loop over the
  discovered names on a `FileSystem` object. Each is proved equal to a functional specification
  (`CreateRun`, `CleanRun`).
- `PipelineProperties` (pipeline_properties.dfy): what the two runs promise. The create run writes the
  right descriptor for each returned name. It is idempotent. Create followed by clean equals clean
  alone. Clean removes exactly the proxy directories.

In three places the code does something a reader expecting no partial output might not
expect. The model follows the code in each case:

- `mkDir(proxyDir)` runs before `fileProxy` is awaited, and nothing is written when `fileProxy`
  rejects. So if the package name cannot be resolved, a proxy directory that did not exist is created
  empty, and one that already existed keeps whatever package.json it held
  (`PipelineProperties.CreateRunNameFailure`, `PipelineProperties.CreateOneFailureLeavesDir`).
- `.catch(noop)` drops every `mkdir` error, not only "already exists". Any real problem shows up
  later, in `writeFile`.
- `pkgCache` stores a name only after a search has found it. A failed search is therefore not
  memoised, and each file of a run whose name cannot be resolved searches again
  (`PackageName.SearchDecides`, `PackageName.RunSearchesCount`).

The external calls are parameters, grouped in `Pipeline.Host`:

- `path.resolve(process.cwd(), .)`: a function `string -> string`
- the glob search: pattern and cwd to the matched paths, or the error it rejects with
- `readPkgUp`: cwd to the `name` found, none, or the error it rejects with
- the `stat`-based `isFile` check: a predicate on paths

## Model

| member | source | states |
|---|---|---|
| Js.Message | lib/index.js:50-54 | The message for a missing package name ends with the `cwd` the search started from. |
| Defaults.CwdArgument | lib/index.js:19-23 | Succeeds exactly when `cwd` is undefined or a string. Undefined (absent or present) gives '.', and a string is passed on as itself. Any other value is a TypeError. |
| Defaults.WithDefaults | lib/index.js:18-26 | Fails exactly when `cwd` is neither undefined (absent or present) nor a string. On success the keys are inputDir, cwd, the additional defaults and the caller's keys. The caller's value wins for every key except `cwd`. An additional default beats the built-in ones. inputDir is 'src' unless overridden. `cwd` is always the resolved path. |
| Defaults.CreatePathDefaults | lib/index.js:85-88 | On the create path inputDir, cjsDir and esmDir are 'src', 'lib' and 'es' unless the caller supplies them, and every other caller key passes through. |
| Defaults.DiscoveryOptionsAgree | lib/index.js:85-107 | The create options and the clean options succeed together and agree on inputDir and on the resolved string `cwd`. |
| Defaults.CwdDefaultsToDot | lib/index.js:19-23 | Without a caller `cwd`, the working directory is the resolved form of '.'. |
| Discovery.Basename | lib/index.js:37 | The basename has no '/', is a suffix of the path, and is preceded by a '/' unless it is the whole path. |
| Discovery.ExtensionUnique | lib/index.js:37 | At most one of .js, .jsx, .ts and .tsx ends a given name. |
| Discovery.StripExtension | lib/index.js:37 | The result is a prefix of the name. With one of the four extensions, name == result + that extension. Otherwise the name is unchanged. |
| Discovery.ModuleNameShape | lib/index.js:37 | A module name has no '/' and is the basename with its one source extension removed. |
| Discovery.NonDeclarationsMembers | lib/index.js:36 | The filter keeps exactly the paths that do not end in `.d.ts`. |
| Discovery.MapAt | lib/index.js:37 | `map` gives one result per element, and entry i is `f` applied to element i. |
| Discovery.MapAppend | lib/index.js:37 | `map` distributes over concatenation. |
| Discovery.StripAllAt | lib/index.js:37 | The map is position by position: same length, and entry i is the module name of path i. |
| Discovery.FindFiles | lib/index.js:30-38 | Succeeds exactly when inputDir is a string and the glob resolves. A non-string inputDir is a TypeError, and a rejected glob rejects with its own error. On success the result is the module names of the glob's matches for `<inputDir>/!(index).{js,jsx,ts,tsx}` under `cwd`. |
| Discovery.NonDeclarationsAppend | lib/index.js:36 | Filtering distributes over concatenation, so the order of the matches is kept. |
| Discovery.StripAllAppend | lib/index.js:37 | Renaming distributes over concatenation. |
| Discovery.ModuleNamesAppend | lib/index.js:35-37 | The derived names of two match lists concatenated are the two name lists concatenated. |
| Discovery.ModuleNamesSingle | lib/index.js:35-37 | One match yields nothing if it is a declaration file, and otherwise its module name. |
| Discovery.StripAllMembers | lib/index.js:37 | A name is produced exactly when some input path has it as its module name. |
| Discovery.ModuleNamesMembers | lib/index.js:35-37 | A name is derived exactly when some non-declaration match has it as its module name. |
| Discovery.ModuleNamesSlashFree | lib/index.js:37 | No derived name contains '/'. |
| Discovery.DiscoveryExample | lib/index.js:35-37 | Matches src/foo.js, src/types.d.ts and src/bar.ts give the names foo and bar, in that order. |
| Discovery.BarName | lib/index.js:37 | The module name of src/bar.ts is bar. |
| Discovery.FooName | lib/index.js:37 | The module name of src/foo.js is foo. |
| Discovery.ModuleNamesTriple | lib/index.js:35-37 | The names of three matches are the names of each one, concatenated in order. |
| Discovery.DeclarationDropped | lib/index.js:36 | The declaration file src/types.d.ts yields no name. |
| Discovery.SourceFileName | lib/index.js:36-37 | A non-declaration path `src/<stem><ext>` yields exactly one name, `<stem>`. |
| Discovery.NameOfSourceFile | lib/index.js:37 | The module name of `src/<stem><ext>` with a slash-free stem is `<stem>`. |
| PackageName.Resolver.constructor | lib/index.js:40 | The memo table starts empty, with no searches. |
| PackageName.Resolver.NewOptionsKey | lib/index.js:85 | A freshly created options object is never a key of the memo table yet. |
| PackageName.Resolver.GetPkgName | lib/index.js:42-59 | Returns PkgNameOf of the old cache. The cache becomes CacheAfter. A search is logged exactly when there is no explicit name and no cached entry. |
| PackageName.ExplicitNameWins | lib/index.js:43-45 | A non-nullish `name` is returned as is, whatever the cache or the search says, and nothing is searched or stored. |
| PackageName.CachedNameWins | lib/index.js:46-48 | Without a name, a cached entry is returned whatever the search would find, and nothing is searched. |
| PackageName.SearchDecides | lib/index.js:49-58 | Otherwise the search decides. A found name is stored and returned. No package.json is an error whose message ends with `cwd`. A rejected search rejects with its own error. In both failure cases the cache stays unchanged. |
| PackageName.RunSearchesCount | lib/index.js:42-59 | Over `n` resolutions for one options object, every search is for `cwd`. There is a search exactly when `n > 0` and neither an explicit name nor a cached entry exists. When the name resolves there is at most one search, and when it fails there is one per resolution. |
| PackageName.RunSearchesStep | lib/index.js:46-58 | One more resolution adds a search exactly when the cache left by the earlier ones calls for it, and it leaves the cache as the first resolution did. |
| PackageName.ResolutionAdvances | lib/index.js:42-59 | One more `getPkgName` call answers as the first did and advances the memo table and search log by one resolution. |
| PackageName.ResolutionStable | lib/index.js:46-58 | Resolving again with the updated cache gives the same outcome, and after a success no further search starts. |
| PackageName.FreshKeysAgree | lib/index.js:40-58 | Two fresh options objects with equal contents resolve alike. |
| PackageName.ResolveTwice | lib/index.js:42-59 | Two resolutions for one options object answer the same, and after a success they search at most once. |
| Proxy.Keys | lib/index.js:65-81 | The key list of the field sequence has one key per field, in field order. |
| Proxy.FileProxy | lib/index.js:61-82 | The text is ProxyText of the name resolved from the old cache. The resolver state changes as GetPkgName's does. |
| Proxy.AlwaysPresentFields | lib/index.js:62-70 | Building succeeds exactly when cjsDir and esmDir are strings and typesDir or cwd is a string. name is `<pkgName>/<file>`, main is `../<cjsDir>/<file>.js` and module is `../<esmDir>/<file>.js`. types is the first-match choice of `TypesPath`. |
| Proxy.TypesFirstMatch | lib/index.js:72-79 | `types` follows the first rule that applies: an explicit string typesDir, then `<cwd>/<file>.d.ts`, then `<cwd>/<esmDir>/<file>.d.ts`. It is absent when none applies. |
| Proxy.TypesDirIgnoresFilesystem | lib/index.js:72-73 | With a string typesDir, the descriptor does not depend on what exists on disk. |
| Proxy.RenderShape | lib/index.js:65-81 | The text is one JSON object that ends with a newline. The field list `Render` prints has, in order, the keys name, private, main, module, types. private is `true`, and each other field holds the descriptor's own value. |
| Proxy.DescriptorExample | lib/index.js:65-79 | Module foo of package mylib, with the create defaults and no declaration files, gets name mylib/foo, main ../lib/foo.js, module ../es/foo.js and no types. |
| FileTree.MkDirEffect | lib/index.js:95 | mkdir succeeds exactly when the path is new and its parent is an existing directory, and then it adds a directory. |
| FileTree.RimrafOn | lib/index.js:110 | rimraf removes exactly the root and the paths below it and keeps every other entry unchanged. |
| FileTree.FileSystem.MkDir | lib/index.js:95 | The state and the error are what MkDirOn gives (EEXIST, ENOENT, ENOTDIR). |
| FileTree.FileSystem.WriteFile | lib/index.js:96-99 | The state and the error are what WriteFileOn gives (ENOENT, ENOTDIR, EISDIR). |
| FileTree.FileSystem.Rimraf | lib/index.js:110 | The new state is RimrafOn of the old one. |
| Pipeline.Prune | lib/index.js:109-111 | After pruning, a path remains exactly when it is under none of the roots, and its entry is unchanged. |
| Pipeline.CherryPick | lib/index.js:84-104 | The result and the new filesystem are CreateRun of the old filesystem, the old cache and the fresh options identity. A successful merge uses up exactly one options identity. The memo table gains the run's name only when some file was discovered. The search log grows by RunSearches for the number of discovered files. |
| Pipeline.CreateProxies | lib/index.js:92-101 | The loop over the names gives the filesystem and the per-file errors that CreateAll specifies, with the name resolving alike for every file. The memo table is CacheAfter unless there are no files, and the search log grows by RunSearches for the number of files. |
| Pipeline.CreateProxy | lib/index.js:94-99 | One file's work has the effect of CreateOne with its descriptor text. The resolver state changes as one GetPkgName does. |
| PipelineProperties.CreateAllAppend | lib/index.js:92-101 | The steps for two file lists concatenated are the steps for the first list, then those for the second on the resulting filesystem, with the errors in file order. |
| Pipeline.Clean | lib/index.js:106-113 | The result and the new filesystem are CleanRun of the old filesystem. |
| Pipeline.RemoveProxies | lib/index.js:109-111 | The loop of `rimraf` calls leaves the old filesystem pruned of every `<cwd>/<name>`. |
| Pipeline.PruneStep | lib/index.js:109-111 | Removing one more directory from a pruned tree is the same as pruning it too. |
| PipelineProperties.OwnsInjective | lib/index.js:94-97 | Different slash-free names never share a proxy directory or a package.json path. |
| PipelineProperties.CwdNotOwned | lib/index.js:94-97 | `cwd` is never a proxy directory or a package.json path. |
| PipelineProperties.CreateOneFrame | lib/index.js:94-99 | One file's create step changes nothing but its proxy directory and its package.json. |
| PipelineProperties.CreateOneLocal | lib/index.js:94-99 | One file's create step depends only on `cwd`, its proxy directory and its package.json. |
| PipelineProperties.CreateOneIdempotent | lib/index.js:95-99 | Repeating one file's create step changes nothing, because an existing directory is ignored. |
| PipelineProperties.CreateOneSucceeds | lib/index.js:94-99 | From a ready state, a successful descriptor is written without error into a directory. |
| PipelineProperties.CreateOneFailureLeavesDir | lib/index.js:95-98 | A failed descriptor still leaves the proxy directory, reports its error, and writes no package.json. |
| PipelineProperties.CreateAllFrame | lib/index.js:92-101 | The whole create loop leaves every path no name owns unchanged. |
| PipelineProperties.CreateAllLocal | lib/index.js:92-101 | At a path a name owns, the whole loop has the effect of that name's own step. |
| PipelineProperties.CreateAllIdempotent | lib/index.js:92-101 | Running the loop twice gives the filesystem of running it once. |
| PipelineProperties.CreateOneNoErrors | lib/index.js:94-99 | A file's create step without an error has made its directory and written its text into it. |
| PipelineProperties.OtherNameKept | lib/index.js:94-99 | One file's create step leaves the proxy directory and package.json of every other slash-free name as they were. |
| PipelineProperties.JobsWritten | lib/index.js:92-101 | Without rejections, the name resolved and each discovered name's directory holds the descriptor rendered for it. |
| PipelineProperties.NoErrorsWritten | lib/index.js:92-101 | Without any error, every name has its directory holding a package.json with its descriptor text. |
| PipelineProperties.NoErrorsWhenReady | lib/index.js:92-101 | From a ready state with successful descriptors, the loop reports no error. |
| PipelineProperties.CreateAllSameFailure | lib/index.js:92-101 | When every descriptor fails with the same error, every step reports it, in order. |
| PipelineProperties.CreateThenPrune | lib/index.js:92-111 | Pruning the proxy directories after the loop gives what pruning them before it gives. |
| PipelineProperties.JobsShape | lib/index.js:93 | One job per discovered name, in order: slash-free and consistent. |
| PipelineProperties.DiscoveredSlashFree | lib/index.js:30-38 | Every discovered name is free of '/'. |
| PipelineProperties.CreateReturnsDiscovered | lib/index.js:90-103 | A create run that resolves returns exactly the list findFiles produced. |
| PipelineProperties.CreateRunWritesDescriptors | lib/index.js:84-104 | After a create run that resolves, every returned name has a directory under cwd holding its rendered descriptor. |
| PipelineProperties.CreateRunSucceeds | lib/index.js:84-104 | With a resolvable name, string output dirs, `cwd` a directory and nothing in the way, the run resolves to the discovered list. |
| PipelineProperties.CreateRunNameFailure | lib/index.js:92-99 | An unresolvable name rejects the run with that error, yet each ready proxy directory that held no package.json is made, still without one. |
| PipelineProperties.CreateRunIdempotent | lib/index.js:84-104 | A second create run on the result of the first leaves the filesystem as it is. |
| PipelineProperties.CreateThenClean | lib/index.js:84-113 | Create followed by clean leaves the filesystem as clean alone would. |
| PipelineProperties.CleanRemovesProxyDirs | lib/index.js:106-113 | Clean resolves to the discovered list, removes each `<cwd>/<name>` and everything below it, and leaves every other entry unchanged. |
| PipelineProperties.CleanNothingDiscovered | lib/index.js:106-113 | With nothing discovered, clean changes nothing. |

## Left out

- The command-line wrapper (bin/cherry-pick.js): argument parsing and output are not part of this model.
- The glob search: its pattern semantics, traversal order and the `cwd` option are an input function. The model derives names from whatever paths it returns, or passes on its rejection.
- `path.resolve`, the glob, `readPkgUp` and `stat` are input functions, and none of them is connected to the `FileSystem` model. Writing or removing a file does not change what `isFile` answers, what the glob matches or what `readPkgUp` finds. `CreateRunIdempotent` and `CreateThenClean` therefore give the second run the same matches and the same package name as the first.
- `path.join` normalisation: joins are plain `a + "/" + b`. Removal of `..` and `.` segments, repeated slashes, and the trailing-slash handling of `path.basename` are not modelled.
- `JSON.stringify` escaping: only `"` and `\` are escaped. Control characters and other code points are not.
- Option values are undefined, null, booleans or strings. Numbers and objects are not modelled. `ToString` gives those four kinds the text a template literal gives them.
- A `null` options argument (which makes the destructuring throw) is not modelled. A missing argument is the empty map.
- Concurrency: the per-file work under `Promise.all` runs one file after the other in file order, and the run's rejection is the first error in that order. In the code the calls to `getPkgName` can start before any of them stores a name, so one run can start a search for every file. The sequential model searches at most once when the name is found, and once per file when it is not (`PackageName.RunSearchesCount`).
- WeakMap identity: each options object is a natural-number key, and garbage collection of entries is not modelled.
- Error values: only the kind of each error is modelled (TypeError, missing package name, the fs error code and path). Node's exact message texts are not, except for the missing-package-name message.
- The `errno` values and messages of `mkdir`, `writeFile` and `rimraf` beyond the codes EEXIST, ENOENT, ENOTDIR and EISDIR, and permission errors.
- `rimraf` results: removal always succeeds in the model. Its failure modes are not modelled.
- `rimraf` glob expansion: the callback versions of `rimraf` that `promisify` wraps treat their argument as a glob when nothing exists at the literal path. For a module name containing glob characters (`[id]` from `src/[id].js`) with no `<cwd>/[id]`, `clean` would remove matching entries such as `<cwd>/i` and `<cwd>/d`. `RimrafOn` always removes the literal path, so `CleanRemovesProxyDirs` does not hold for such names.
