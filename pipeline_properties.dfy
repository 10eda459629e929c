/** What the create and clean runs promise, proved about their specifications in Pipeline. */
module PipelineProperties {
  import opened Wrappers
  import opened Js
  import opened Paths
  import opened Defaults
  import opened Discovery
  import opened PackageName
  import opened Proxy
  import opened FileTree
  import opened Pipeline

  /** Discovered names never contain '/', so each one is a single directory under `cwd`. */
  predicate SlashFree(jobs: seq<Job>)
  {
    forall i :: 0 <= i < |jobs| ==> '/' !in jobs[i].file
  }

  /** Two jobs for the same name carry the same text (duplicate basenames collapse). */
  predicate Consistent(jobs: seq<Job>)
  {
    forall i, j :: 0 <= i < |jobs| && 0 <= j < |jobs| && jobs[i].file == jobs[j].file ==> jobs[i] == jobs[j]
  }

  function FilesOf(jobs: seq<Job>): seq<string>
  {
    seq(|jobs|, i requires 0 <= i < |jobs| => jobs[i].file)
  }

  /** The state at `cwd` and the two owned paths lets the create step for `file` succeed. */
  predicate Ready(t: Tree, cwd: string, file: string)
  {
    && At(t, cwd) == Some(Dir)
    && At(t, ProxyDir(cwd, file)) in {None, Some(Dir)}
    && !(ManifestPath(cwd, file) in t && t[ManifestPath(cwd, file)].Dir?)
  }

  lemma AtExtensional(a: Tree, b: Tree)
    requires forall p :: At(a, p) == At(b, p)
    ensures a == b
  {
    forall p
      ensures p in a <==> p in b
      ensures p in a ==> a[p] == b[p]
    {
      assert At(a, p) == At(b, p);
    }
  }

  /** Slash-free names own disjoint paths. */
  lemma OwnsInjective(cwd: string, f: string, g: string, p: string)
    requires '/' !in f && '/' !in g
    ensures Owns(cwd, f, p) && Owns(cwd, g, p) ==> f == g
  {
    JoinNotNested(cwd, f, g, "package.json");
    JoinNotNested(cwd, g, f, "package.json");
    if p == ProxyDir(cwd, f) && p == ProxyDir(cwd, g) {
      JoinCancel(cwd, f, g);
    }
    if p == ManifestPath(cwd, f) && p == ManifestPath(cwd, g) {
      JoinNestedCancel(cwd, f, g, "package.json");
    }
  }

  /** `cwd` itself is never one of the owned paths. */
  lemma CwdNotOwned(cwd: string, jobs: seq<Job>)
    ensures forall i :: 0 <= i < |jobs| ==> !Owns(cwd, jobs[i].file, cwd)
  {
  }

  /** The create step changes nothing but the two paths its name owns. */
  lemma CreateOneFrame(t: Tree, cwd: string, job: Job, p: string)
    requires !Owns(cwd, job.file, p)
    ensures At(CreateOne(t, cwd, job).tree, p) == At(t, p)
  {
  }

  /** The create step reads only `cwd` and the two owned paths. */
  lemma CreateOneLocal(t: Tree, t': Tree, cwd: string, job: Job)
    requires At(t, cwd) == At(t', cwd)
    requires At(t, ProxyDir(cwd, job.file)) == At(t', ProxyDir(cwd, job.file))
    requires At(t, ManifestPath(cwd, job.file)) == At(t', ManifestPath(cwd, job.file))
    ensures At(CreateOne(t, cwd, job).tree, ProxyDir(cwd, job.file)) == At(CreateOne(t', cwd, job).tree, ProxyDir(cwd, job.file))
    ensures At(CreateOne(t, cwd, job).tree, ManifestPath(cwd, job.file)) == At(CreateOne(t', cwd, job).tree, ManifestPath(cwd, job.file))
    ensures CreateOne(t, cwd, job).errors == CreateOne(t', cwd, job).errors
  {
  }

  /** Repeating the create step for one name changes nothing: an existing directory is not an error. */
  lemma CreateOneIdempotent(t: Tree, cwd: string, job: Job)
    ensures CreateOne(CreateOne(t, cwd, job).tree, cwd, job).tree == CreateOne(t, cwd, job).tree
  {
  }

  /** From a ready state the create step succeeds and leaves the directory and the descriptor in place. */
  lemma CreateOneSucceeds(t: Tree, cwd: string, job: Job)
    requires Ready(t, cwd, job.file) && job.text.Success?
    ensures var o := CreateOne(t, cwd, job);
      && o.errors == []
      && At(o.tree, ProxyDir(cwd, job.file)) == Some(Dir)
      && At(o.tree, ManifestPath(cwd, job.file)) == Some(File(job.text.value))
  {
  }

  /**
   * The directory is made before the descriptor is built, so a failed descriptor still
   * leaves an empty proxy directory behind, and its error is the step's only error.
   */
  lemma CreateOneFailureLeavesDir(t: Tree, cwd: string, job: Job)
    requires Ready(t, cwd, job.file) && job.text.Failure?
    ensures var o := CreateOne(t, cwd, job);
      && o.errors == [job.text.error]
      && At(o.tree, ProxyDir(cwd, job.file)) == Some(Dir)
      && At(o.tree, ManifestPath(cwd, job.file)) == At(t, ManifestPath(cwd, job.file))
  {
  }

  lemma PrefixKeeps(jobs: seq<Job>)
    requires |jobs| > 0
    ensures SlashFree(jobs) ==> SlashFree(jobs[..|jobs| - 1])
    ensures Consistent(jobs) ==> Consistent(jobs[..|jobs| - 1])
  {
  }

  /**
   * Running the steps for `a + b` is running those for `a`, then those for `b` on the
   * resulting filesystem; the rejections are collected in the same order.
   */
  lemma {:induction false} CreateAllAppend(t: Tree, cwd: string, a: seq<Job>, b: seq<Job>)
    ensures var first := CreateAll(t, cwd, a);
      var second := CreateAll(first.tree, cwd, b);
      CreateAll(t, cwd, a + b) == Outcome(second.tree, first.errors + second.errors)
    decreases |b|
  {
    var first := CreateAll(t, cwd, a);
    if b == [] {
      assert a + b == a;
    } else {
      var init := b[..|b| - 1];
      assert (a + b)[..|a + b| - 1] == a + init;
      assert (a + b)[|a + b| - 1] == b[|b| - 1];
      CreateAllAppend(t, cwd, a, init);
      var mid := CreateAll(first.tree, cwd, init);
      var last := CreateOne(mid.tree, cwd, b[|b| - 1]);
      assert first.errors + mid.errors + last.errors == first.errors + (mid.errors + last.errors);
    }
  }

  /** A path no discovered name owns is left as it was by the whole create run. */
  lemma {:induction false} CreateAllFrame(t: Tree, cwd: string, jobs: seq<Job>, p: string)
    requires forall i :: 0 <= i < |jobs| ==> !Owns(cwd, jobs[i].file, p)
    ensures At(CreateAll(t, cwd, jobs).tree, p) == At(t, p)
    decreases |jobs|
  {
    if jobs != [] {
      var init := jobs[..|jobs| - 1];
      CreateAllFrame(t, cwd, init, p);
      CreateOneFrame(CreateAll(t, cwd, init).tree, cwd, jobs[|jobs| - 1], p);
    }
  }

  /**
   * An owned path ends up exactly as one create step for its name would leave it on
   * the initial filesystem: the steps for different names do not interfere, and a
   * repeated name repeats an idempotent step.
   */
  lemma {:induction false} CreateAllLocal(t: Tree, cwd: string, jobs: seq<Job>, i: nat, p: string)
    requires SlashFree(jobs) && Consistent(jobs)
    requires i < |jobs| && Owns(cwd, jobs[i].file, p)
    ensures At(CreateAll(t, cwd, jobs).tree, p) == At(CreateOne(t, cwd, jobs[i]).tree, p)
    decreases |jobs|
  {
    var n := |jobs|;
    var init, j := jobs[..n - 1], jobs[n - 1];
    var before := CreateAll(t, cwd, init).tree;
    PrefixKeeps(jobs);
    var f := j.file;
    if f == jobs[i].file {
      assert j == jobs[i];
      var t1 := CreateOne(t, cwd, j).tree;
      CwdNotOwned(cwd, init);
      CreateAllFrame(t, cwd, init, cwd);
      if k :| 0 <= k < n - 1 && init[k].file == f {
        assert init[k] == j;
        CreateAllLocal(t, cwd, init, k, ProxyDir(cwd, f));
        CreateAllLocal(t, cwd, init, k, ManifestPath(cwd, f));
        CreateOneFrame(t, cwd, j, cwd);
        CreateOneLocal(before, t1, cwd, j);
        CreateOneIdempotent(t, cwd, j);
      } else {
        forall k | 0 <= k < n - 1
          ensures !Owns(cwd, init[k].file, ProxyDir(cwd, f)) && !Owns(cwd, init[k].file, ManifestPath(cwd, f))
        {
          OwnsInjective(cwd, init[k].file, f, ProxyDir(cwd, f));
          OwnsInjective(cwd, init[k].file, f, ManifestPath(cwd, f));
        }
        CreateAllFrame(t, cwd, init, ProxyDir(cwd, f));
        CreateAllFrame(t, cwd, init, ManifestPath(cwd, f));
        CreateOneLocal(before, t, cwd, j);
      }
    } else {
      OwnsInjective(cwd, f, jobs[i].file, p);
      CreateOneFrame(before, cwd, j, p);
      CreateAllLocal(t, cwd, init, i, p);
    }
  }

  /** Running the create steps a second time leaves the filesystem exactly as the first run did. */
  lemma CreateAllIdempotent(t: Tree, cwd: string, jobs: seq<Job>)
    requires SlashFree(jobs) && Consistent(jobs)
    ensures CreateAll(CreateAll(t, cwd, jobs).tree, cwd, jobs).tree == CreateAll(t, cwd, jobs).tree
  {
    var once := CreateAll(t, cwd, jobs).tree;
    var twice := CreateAll(once, cwd, jobs).tree;
    forall p
      ensures At(twice, p) == At(once, p)
    {
      if i :| 0 <= i < |jobs| && Owns(cwd, jobs[i].file, p) {
        var j := jobs[i];
        var t1 := CreateOne(t, cwd, j).tree;
        CreateAllLocal(once, cwd, jobs, i, p);
        CreateAllLocal(t, cwd, jobs, i, ProxyDir(cwd, j.file));
        CreateAllLocal(t, cwd, jobs, i, ManifestPath(cwd, j.file));
        CwdNotOwned(cwd, jobs);
        CreateAllFrame(t, cwd, jobs, cwd);
        CreateOneFrame(t, cwd, j, cwd);
        CreateOneLocal(once, t1, cwd, j);
        CreateOneIdempotent(t, cwd, j);
        CreateAllLocal(t, cwd, jobs, i, p);
      } else {
        CreateAllFrame(once, cwd, jobs, p);
      }
    }
    AtExtensional(twice, once);
  }

  /** A create step without an error has made the directory and written the text into it. */
  lemma CreateOneNoErrors(t: Tree, cwd: string, job: Job)
    requires CreateOne(t, cwd, job).errors == []
    ensures var o := CreateOne(t, cwd, job);
      && job.text.Success?
      && At(o.tree, ProxyDir(cwd, job.file)) == Some(Dir)
      && At(o.tree, ManifestPath(cwd, job.file)) == Some(File(job.text.value))
  {
  }

  /** The create step for one name leaves the two paths of any other slash-free name as they were. */
  lemma OtherNameKept(t: Tree, cwd: string, job: Job, f: string)
    requires '/' !in f && '/' !in job.file && f != job.file
    ensures At(CreateOne(t, cwd, job).tree, ProxyDir(cwd, f)) == At(t, ProxyDir(cwd, f))
    ensures At(CreateOne(t, cwd, job).tree, ManifestPath(cwd, f)) == At(t, ManifestPath(cwd, f))
  {
    OwnsInjective(cwd, f, job.file, ProxyDir(cwd, f));
    OwnsInjective(cwd, f, job.file, ManifestPath(cwd, f));
    CreateOneFrame(t, cwd, job, ProxyDir(cwd, f));
    CreateOneFrame(t, cwd, job, ManifestPath(cwd, f));
  }

  /**
   * A run without rejections has written every name's descriptor: the directory
   * `<cwd>/<name>` exists and holds `package.json` with that name's text.
   */
  lemma {:induction false} NoErrorsWritten(t: Tree, cwd: string, jobs: seq<Job>)
    requires SlashFree(jobs) && Consistent(jobs)
    requires CreateAll(t, cwd, jobs).errors == []
    ensures forall i :: 0 <= i < |jobs| ==>
      && jobs[i].text.Success?
      && At(CreateAll(t, cwd, jobs).tree, ProxyDir(cwd, jobs[i].file)) == Some(Dir)
      && At(CreateAll(t, cwd, jobs).tree, ManifestPath(cwd, jobs[i].file)) == Some(File(jobs[i].text.value))
    decreases |jobs|
  {
    if jobs != [] {
      var n := |jobs|;
      var init, j := jobs[..n - 1], jobs[n - 1];
      var before := CreateAll(t, cwd, init).tree;
      var after := CreateAll(t, cwd, jobs).tree;
      PrefixKeeps(jobs);
      NoErrorsWritten(t, cwd, init);
      CreateOneNoErrors(before, cwd, j);
      forall i | 0 <= i < n
        ensures jobs[i].text.Success?
        ensures At(after, ProxyDir(cwd, jobs[i].file)) == Some(Dir)
        ensures At(after, ManifestPath(cwd, jobs[i].file)) == Some(File(jobs[i].text.value))
      {
        if jobs[i].file == j.file {
          assert jobs[i] == j;
        } else {
          assert jobs[i] == init[i];
          OtherNameKept(before, cwd, j, jobs[i].file);
        }
      }
    }
  }

  /**
   * When `cwd` is a directory, every text was produced, and nothing in the way (a file
   * where a proxy directory goes, a directory where a package.json goes), no file fails.
   */
  lemma {:induction false} NoErrorsWhenReady(t: Tree, cwd: string, jobs: seq<Job>)
    requires SlashFree(jobs) && Consistent(jobs)
    requires forall i :: 0 <= i < |jobs| ==> jobs[i].text.Success? && Ready(t, cwd, jobs[i].file)
    ensures CreateAll(t, cwd, jobs).errors == []
    decreases |jobs|
  {
    if jobs != [] {
      var n := |jobs|;
      var init, j := jobs[..n - 1], jobs[n - 1];
      var before := CreateAll(t, cwd, init).tree;
      PrefixKeeps(jobs);
      NoErrorsWhenReady(t, cwd, init);
      CwdNotOwned(cwd, init);
      CreateAllFrame(t, cwd, init, cwd);
      if k :| 0 <= k < n - 1 && init[k].file == j.file {
        NoErrorsWritten(t, cwd, init);
      } else {
        forall k | 0 <= k < n - 1
          ensures !Owns(cwd, init[k].file, ProxyDir(cwd, j.file)) && !Owns(cwd, init[k].file, ManifestPath(cwd, j.file))
        {
          OwnsInjective(cwd, init[k].file, j.file, ProxyDir(cwd, j.file));
          OwnsInjective(cwd, init[k].file, j.file, ManifestPath(cwd, j.file));
        }
        CreateAllFrame(t, cwd, init, ProxyDir(cwd, j.file));
        CreateAllFrame(t, cwd, init, ManifestPath(cwd, j.file));
      }
      assert Ready(before, cwd, j.file);
      CreateOneSucceeds(before, cwd, j);
    }
  }

  /** Clean after create removes exactly what create added: the result is what clean alone leaves. */
  lemma CreateThenPrune(t: Tree, cwd: string, jobs: seq<Job>)
    ensures Prune(CreateAll(t, cwd, jobs).tree, Roots(cwd, FilesOf(jobs))) == Prune(t, Roots(cwd, FilesOf(jobs)))
  {
    var roots := Roots(cwd, FilesOf(jobs));
    var a := Prune(CreateAll(t, cwd, jobs).tree, roots);
    var b := Prune(t, roots);
    forall p
      ensures At(a, p) == At(b, p)
    {
      if !UnderAny(roots, p) {
        forall i | 0 <= i < |jobs|
          ensures !Owns(cwd, jobs[i].file, p)
        {
          JoinIsUnder(cwd, jobs[i].file, "package.json");
          assert roots[i] == ProxyDir(cwd, jobs[i].file);
        }
        CreateAllFrame(t, cwd, jobs, p);
      }
    }
    AtExtensional(a, b);
  }

  // ---- the runs ----

  lemma JobsShape(files: seq<string>, name: Result<Value, Error>, options: Object, isFile: string -> bool)
    requires forall f :: f in files ==> '/' !in f
    ensures var jobs := Jobs(files, name, options, isFile);
      SlashFree(jobs) && Consistent(jobs) && FilesOf(jobs) == files
  {
  }

  /** Discovered names are slash-free. */
  lemma DiscoveredSlashFree(options: Object, glob: Glob)
    requires FindFiles(options, glob).Success?
    ensures forall f :: f in FindFiles(options, glob).value ==> '/' !in f
  {
    ModuleNamesSlashFree(glob(SearchPattern(Get(options, "inputDir").s), Get(options, "cwd")).value);
  }

  /** `cherryPick` resolves to exactly the list `findFiles` produced, or it rejects. */
  lemma CreateReturnsDiscovered(t: Tree, cache: map<OptionsKey, Value>, key: OptionsKey, input: Object, host: Host)
    requires CreateRun(t, cache, key, input, host).0.Success?
    ensures WithDefaults(input, CreateDefaults, host.resolve).Success?
    ensures FindFiles(WithDefaults(input, CreateDefaults, host.resolve).value, host.glob) == CreateRun(t, cache, key, input, host).0
  {
  }

  /**
   * After a create run that resolves, every returned name has its directory under
   * `cwd`, holding a package.json whose content is that name's descriptor text.
   */
  lemma CreateRunWritesDescriptors(t: Tree, cache: map<OptionsKey, Value>, key: OptionsKey, input: Object, host: Host, f: string)
    requires CreateRun(t, cache, key, input, host).0.Success?
    requires f in CreateRun(t, cache, key, input, host).0.value
    ensures var options := WithDefaults(input, CreateDefaults, host.resolve).value;
      var cwd := Get(options, "cwd").s;
      var name := PkgNameOf(cache, key, options, host.readPkgUp);
      var after := CreateRun(t, cache, key, input, host).1;
      && name.Success?
      && Build(name.value, options, f, host.isFile).Success?
      && At(after, ProxyDir(cwd, f)) == Some(Dir)
      && At(after, ManifestPath(cwd, f)) == Some(File(Render(Build(name.value, options, f, host.isFile).value)))
  {
    var options := WithDefaults(input, CreateDefaults, host.resolve).value;
    DiscoveredSlashFree(options, host.glob);
    JobsWritten(t, Get(options, "cwd").s, FindFiles(options, host.glob).value, PkgNameOf(cache, key, options, host.readPkgUp), options, host.isFile, f);
  }

  /** Without rejections, each name's directory holds the descriptor built for it. */
  lemma JobsWritten(t: Tree, cwd: string, files: seq<string>, name: Result<Value, Error>, options: Object, isFile: string -> bool, f: string)
    requires forall g :: g in files ==> '/' !in g
    requires CreateAll(t, cwd, Jobs(files, name, options, isFile)).errors == []
    requires f in files
    ensures var after := CreateAll(t, cwd, Jobs(files, name, options, isFile)).tree;
      && name.Success?
      && Build(name.value, options, f, isFile).Success?
      && At(after, ProxyDir(cwd, f)) == Some(Dir)
      && At(after, ManifestPath(cwd, f)) == Some(File(Render(Build(name.value, options, f, isFile).value)))
  {
    var jobs := Jobs(files, name, options, isFile);
    JobsShape(files, name, options, isFile);
    NoErrorsWritten(t, cwd, jobs);
    var i :| 0 <= i < |files| && files[i] == f;
    assert jobs[i].text == ProxyText(name, options, f, isFile);
  }

  /**
   * A create run resolves to the discovered list when the package name resolves, the
   * output directories are strings, `cwd` is a directory and nothing is in the way of
   * any proxy directory or package.json.
   */
  lemma CreateRunSucceeds(t: Tree, cache: map<OptionsKey, Value>, key: OptionsKey, input: Object, host: Host)
    requires WithDefaults(input, CreateDefaults, host.resolve).Success?
    requires var options := WithDefaults(input, CreateDefaults, host.resolve).value;
      && FindFiles(options, host.glob).Success?
      && PkgNameOf(cache, key, options, host.readPkgUp).Success?
      && Get(options, "cjsDir").Str? && Get(options, "esmDir").Str?
      && forall f :: f in FindFiles(options, host.glob).value ==> Ready(t, Get(options, "cwd").s, f)
    ensures CreateRun(t, cache, key, input, host).0 ==
      FindFiles(WithDefaults(input, CreateDefaults, host.resolve).value, host.glob)
  {
    var options := WithDefaults(input, CreateDefaults, host.resolve).value;
    var files := FindFiles(options, host.glob).value;
    var name := PkgNameOf(cache, key, options, host.readPkgUp);
    var jobs := Jobs(files, name, options, host.isFile);
    DiscoveredSlashFree(options, host.glob);
    JobsShape(files, name, options, host.isFile);
    forall i | 0 <= i < |jobs|
      ensures jobs[i].text.Success? && Ready(t, Get(options, "cwd").s, jobs[i].file)
    {
      AlwaysPresentFields(name.value, options, files[i], host.isFile);
      assert files[i] in files;
    }
    NoErrorsWhenReady(t, Get(options, "cwd").s, jobs);
  }

  /** When every descriptor fails with the same error, every step reports it, in order. */
  lemma {:induction false} CreateAllSameFailure(t: Tree, cwd: string, jobs: seq<Job>, e: Error)
    requires forall i :: 0 <= i < |jobs| ==> jobs[i].text == Failure(e)
    ensures |CreateAll(t, cwd, jobs).errors| == |jobs|
    ensures forall i :: 0 <= i < |jobs| ==> CreateAll(t, cwd, jobs).errors[i] == e
  {
    if jobs != [] {
      CreateAllSameFailure(t, cwd, jobs[..|jobs| - 1], e);
    }
  }

  /**
   * When the package name cannot be resolved and something was discovered, the run
   * rejects with that error, yet every ready proxy directory has been made, without
   * a package.json in it.
   */
  lemma CreateRunNameFailure(t: Tree, cache: map<OptionsKey, Value>, key: OptionsKey, input: Object, host: Host, f: string)
    requires WithDefaults(input, CreateDefaults, host.resolve).Success?
    requires var options := WithDefaults(input, CreateDefaults, host.resolve).value;
      && FindFiles(options, host.glob).Success?
      && PkgNameOf(cache, key, options, host.readPkgUp).Failure?
      && f in FindFiles(options, host.glob).value
      && Ready(t, Get(options, "cwd").s, f)
      && ManifestPath(Get(options, "cwd").s, f) !in t
    ensures var options := WithDefaults(input, CreateDefaults, host.resolve).value;
      var cwd := Get(options, "cwd").s;
      var run := CreateRun(t, cache, key, input, host);
      && run.0 == Failure(PkgNameOf(cache, key, options, host.readPkgUp).error)
      && At(run.1, ProxyDir(cwd, f)) == Some(Dir)
      && At(run.1, ManifestPath(cwd, f)) == None
  {
    var options := WithDefaults(input, CreateDefaults, host.resolve).value;
    var cwd := Get(options, "cwd").s;
    var files := FindFiles(options, host.glob).value;
    var name := PkgNameOf(cache, key, options, host.readPkgUp);
    var jobs := Jobs(files, name, options, host.isFile);
    DiscoveredSlashFree(options, host.glob);
    JobsShape(files, name, options, host.isFile);
    CreateAllSameFailure(t, cwd, jobs, name.error);
    var i :| 0 <= i < |files| && files[i] == f;
    CreateOneFailureLeavesDir(t, cwd, jobs[i]);
    CreateAllLocal(t, cwd, jobs, i, ProxyDir(cwd, f));
    CreateAllLocal(t, cwd, jobs, i, ManifestPath(cwd, f));
  }

  /**
   * Running create twice yields the same filesystem as running it once: each run
   * works on a fresh options object, so both resolve the package name alike.
   */
  lemma CreateRunIdempotent(t: Tree, cache: map<OptionsKey, Value>, key: OptionsKey, cache': map<OptionsKey, Value>, key': OptionsKey, input: Object, host: Host)
    requires key !in cache && key' !in cache'
    ensures var once := CreateRun(t, cache, key, input, host).1;
      CreateRun(once, cache', key', input, host).1 == once
  {
    var optionsOrError := WithDefaults(input, CreateDefaults, host.resolve);
    if optionsOrError.Success? {
      var options := optionsOrError.value;
      if FindFiles(options, host.glob).Success? {
        var files := FindFiles(options, host.glob).value;
        var name := PkgNameOf(cache, key, options, host.readPkgUp);
        FreshKeysAgree(cache, key, cache', key', options, host.readPkgUp);
        DiscoveredSlashFree(options, host.glob);
        JobsShape(files, name, options, host.isFile);
        CreateAllIdempotent(t, Get(options, "cwd").s, Jobs(files, name, options, host.isFile));
      }
    }
  }

  /** Create followed by clean leaves the filesystem as clean alone would: only proxy directories go. */
  lemma CreateThenClean(t: Tree, cache: map<OptionsKey, Value>, key: OptionsKey, input: Object, host: Host)
    ensures CleanRun(CreateRun(t, cache, key, input, host).1, input, host).1 == CleanRun(t, input, host).1
  {
    DiscoveryOptionsAgree(input, host.resolve);
    var optionsOrError := WithDefaults(input, CreateDefaults, host.resolve);
    if optionsOrError.Success? {
      var options := optionsOrError.value;
      var cleanOptions := WithDefaults(input, CleanDefaults, host.resolve).value;
      assert FindFiles(options, host.glob) == FindFiles(cleanOptions, host.glob);
      if FindFiles(options, host.glob).Success? {
        var files := FindFiles(options, host.glob).value;
        var name := PkgNameOf(cache, key, options, host.readPkgUp);
        DiscoveredSlashFree(options, host.glob);
        JobsShape(files, name, options, host.isFile);
        CreateThenPrune(t, Get(options, "cwd").s, Jobs(files, name, options, host.isFile));
      }
    }
  }

  /**
   * `clean` resolves to the discovered list, removes `<cwd>/<name>` and everything
   * below it for each name, and leaves every other entry as it was.
   */
  lemma CleanRemovesProxyDirs(t: Tree, input: Object, host: Host, p: string)
    requires CleanRun(t, input, host).0.Success?
    ensures var options := WithDefaults(input, CleanDefaults, host.resolve).value;
      var files := CleanRun(t, input, host).0.value;
      var after := CleanRun(t, input, host).1;
      && FindFiles(options, host.glob) == Success(files)
      && (p in after <==> p in t && forall f :: f in files ==> !IsUnder(ProxyDir(Get(options, "cwd").s, f), p))
      && (p in after ==> after[p] == t[p])
  {
    var options := WithDefaults(input, CleanDefaults, host.resolve).value;
    var files := CleanRun(t, input, host).0.value;
    var roots := Roots(Get(options, "cwd").s, files);
    if exists f :: f in files && IsUnder(ProxyDir(Get(options, "cwd").s, f), p) {
      var f :| f in files && IsUnder(ProxyDir(Get(options, "cwd").s, f), p);
      var i :| 0 <= i < |files| && files[i] == f;
      assert IsUnder(roots[i], p);
    }
    if UnderAny(roots, p) {
      var i :| 0 <= i < |roots| && IsUnder(roots[i], p);
      assert files[i] in files;
    }
  }

  /** With nothing discovered, clean changes nothing. */
  lemma CleanNothingDiscovered(t: Tree, input: Object, host: Host)
    requires CleanRun(t, input, host).0 == Success([])
    ensures CleanRun(t, input, host).1 == t
  {
    var options := WithDefaults(input, CleanDefaults, host.resolve).value;
    assert Prune(t, Roots(Get(options, "cwd").s, [])) == t;
  }
}
