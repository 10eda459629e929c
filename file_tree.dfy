/** An abstract filesystem: the effects of `fs.mkdir`, `fs.writeFile` and `rimraf`. */
module FileTree {
  import opened Wrappers
  import opened Js
  import opened Paths

  datatype Entry = Dir | File(content: string)

  /** Every existing path and what is there. */
  type Tree = map<string, Entry>

  /** What exists at `p`, if anything. */
  function At(t: Tree, p: string): Option<Entry>
  {
    if p in t then Some(t[p]) else None
  }

  /** `fs.mkdir(Join(parent, name))`, not recursive: the parent must be an existing directory. */
  function MkDirOn(t: Tree, parent: string, name: string): Result<Tree, Error>
  {
    var p := Join(parent, name);
    if p in t then Failure(FsError("EEXIST", p))
    else if parent !in t then Failure(FsError("ENOENT", p))
    else if t[parent].File? then Failure(FsError("ENOTDIR", p))
    else Success(t[p := Dir])
  }

  /** `fs.writeFile(Join(dir, name), content)`: creates or overwrites a file in an existing directory. */
  function WriteFileOn(t: Tree, dir: string, name: string, content: string): Result<Tree, Error>
  {
    var p := Join(dir, name);
    if dir !in t then Failure(FsError("ENOENT", p))
    else if t[dir].File? then Failure(FsError("ENOTDIR", p))
    else if p in t && t[p].Dir? then Failure(FsError("EISDIR", p))
    else Success(t[p := File(content)])
  }

  /** `rimraf(root)`: removes `root` and everything below it; a missing `root` is not an error. */
  function RimrafOn(t: Tree, root: string): (r: Tree)
    ensures forall p :: p in r <==> p in t && !IsUnder(root, p)
    ensures forall p :: p in r ==> r[p] == t[p]
  {
    map p | p in t && !IsUnder(root, p) :: t[p]
  }

  lemma MkDirEffect(t: Tree, parent: string, name: string)
    ensures MkDirOn(t, parent, name).Success? <==>
      Join(parent, name) !in t && At(t, parent) == Some(Dir)
    ensures MkDirOn(t, parent, name).Success? ==>
      MkDirOn(t, parent, name).value == t[Join(parent, name) := Dir]
  {
  }

  /** The abstract filesystem the create and clean runs act on. */
  class FileSystem {
    var entries: Tree

    constructor (initial: Tree)
      ensures entries == initial
    {
      entries := initial;
    }

    method MkDir(parent: string, name: string) returns (err: Option<Error>)
      modifies this
      ensures match MkDirOn(old(entries), parent, name)
        case Success(t) => entries == t && err == None
        case Failure(e) => entries == old(entries) && err == Some(e)
    {
      match MkDirOn(entries, parent, name)
      case Success(t) =>
        entries := t;
        err := None;
      case Failure(e) =>
        err := Some(e);
    }

    method WriteFile(dir: string, name: string, content: string) returns (err: Option<Error>)
      modifies this
      ensures match WriteFileOn(old(entries), dir, name, content)
        case Success(t) => entries == t && err == None
        case Failure(e) => entries == old(entries) && err == Some(e)
    {
      match WriteFileOn(entries, dir, name, content)
      case Success(t) =>
        entries := t;
        err := None;
      case Failure(e) =>
        err := Some(e);
    }

    method Rimraf(root: string)
      modifies this
      ensures entries == RimrafOn(old(entries), root)
    {
      entries := RimrafOn(entries, root);
    }
  }
}
