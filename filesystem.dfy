/**
 * The part of the file system the tool touches: regular files with their
 * text, and directories. `Disk` is the working directory the commands run
 * in; `CreateFile` is `utils::create_file`, the create-if-absent write, and
 * `CreateDirAll` and `ReadToString` are the two `std::fs` calls the commands
 * make besides it.
 */
module FileSystem {
  import opened Prelude

  /** A path relative to the working directory, as its components; `[]` is the working directory itself. */
  type Path = seq<string>

  function Parent(p: Path): Path
    requires p != []
  {
    p[..|p| - 1]
  }

  /** `p` and every directory on the way to it, the working directory included. */
  function Ancestry(p: Path): set<Path> {
    set k | 0 <= k <= |p| :: p[..k]
  }

  datatype FsError =
    | CreateFailed(path: Path)     // `File::create` failed
    | WriteFailed(path: Path)      // `write_all` failed after the file was created
    | DirCreateFailed(path: Path)  // `create_dir_all` failed
    | ReadFailed(path: Path)       // `read_to_string` failed

  /**
   * What the operating system does with one `File::create` followed by
   * `write_all`, beyond what the file system's shape decides (permissions,
   * a full disk): the creation is refused, or the write stops after
   * `written` characters.
   */
  datatype IoFault = Healthy | CreateFails | WriteFails(written: nat)

  function Min(a: nat, b: nat): nat {
    if a <= b then a else b
  }

  /** A snapshot of the file system: file contents by path, and the set of directories. */
  datatype FsState = FsState(files: map<Path, string>, dirs: set<Path>) {

    /** Rust `Path::exists`: a file or a directory is there. */
    predicate Exists(p: Path) {
      p in files || p in dirs
    }

    /**
     * A well-formed tree: the working directory exists, nothing is both a file
     * and a directory, and everything but the working directory sits in a
     * directory.
     */
    ghost predicate Valid() {
      && [] in dirs
      && files.Keys !! dirs
      && (forall p :: p in files ==> p != [] && Parent(p) in dirs)
      && (forall d :: d in dirs && d != [] ==> Parent(d) in dirs)
    }

    /** Some proper part of the way to `p`, or `p` itself, is a regular file. */
    predicate Blocked(p: Path) {
      exists k :: 1 <= k <= |p| && p[..k] in files
    }

    /** `fs::read_to_string`: fails on a directory or a missing path. */
    function ReadToString(p: Path): (r: Result<string, FsError>)
      ensures r.Ok? <==> p in files
      ensures r.Ok? ==> r.value == files[p]
    {
      if p in files then Ok(files[p]) else Err(ReadFailed(p))
    }
  }

  /**
   * `create_file(p, content)` as a transition: the new state and the outcome.
   * A path that exists, as a file or as a directory, is left alone; otherwise
   * the file is created in its parent directory, which must exist.
   */
  function CreateFileStep(s: FsState, p: Path, content: string, fault: IoFault): (r: (FsState, Result<(), FsError>))
    ensures r.0.dirs == s.dirs
    ensures forall q :: q != p ==> (q in r.0.files <==> q in s.files)
    ensures forall q :: q != p && q in s.files ==> r.0.files[q] == s.files[q]
    ensures s.Exists(p) ==> r == (s, Ok(()))
    ensures !s.Exists(p) && (p == [] || Parent(p) !in s.dirs) ==> r == (s, Err(CreateFailed(p)))
    ensures r.1.Ok? ==> r.0.Exists(p)
    ensures r.1.Ok? && !s.Exists(p) ==> r.0.files[p] == content
    ensures !s.Exists(p) && p != [] && Parent(p) in s.dirs && fault == Healthy ==> r.1.Ok?
  {
    if s.Exists(p) then (s, Ok(()))
    else if p == [] || Parent(p) !in s.dirs then (s, Err(CreateFailed(p)))
    else match fault
      case Healthy => (s.(files := s.files[p := content]), Ok(()))
      case CreateFails => (s, Err(CreateFailed(p)))
      case WriteFails(n) => (s.(files := s.files[p := content[..Min(n, |content|)]]), Err(WriteFailed(p)))
  }

  /**
   * `fs::create_dir_all(p)` as a transition. It fails when a regular file
   * stands somewhere on the way, and then creates nothing; otherwise every
   * missing directory down to `p` is created.
   */
  function CreateDirAllStep(s: FsState, p: Path): (r: (FsState, Result<(), FsError>))
    ensures r.0.files == s.files
    ensures r.1.Err? <==> s.Blocked(p)
    ensures r.1.Err? ==> r.0 == s
    ensures r.1.Ok? ==> r.0.dirs == s.dirs + Ancestry(p)
  {
    if s.Blocked(p) then (s, Err(DirCreateFailed(p)))
    else (s.(dirs := s.dirs + Ancestry(p)), Ok(()))
  }

  /** A second `create_file` of a path the first one created or found is a no-op, whatever it is asked to write. */
  lemma CreateFileIdempotent(s: FsState, p: Path, c1: string, c2: string, f1: IoFault, f2: IoFault)
    requires CreateFileStep(s, p, c1, f1).1.Ok?
    ensures var s1 := CreateFileStep(s, p, c1, f1).0;
            CreateFileStep(s1, p, c2, f2) == (s1, Ok(()))
            && (p in s1.files ==> s1.files[p] == if p in s.files then s.files[p] else c1)
  {
  }

  /** `create_file` keeps the tree well formed. */
  lemma CreateFilePreservesValid(s: FsState, p: Path, content: string, fault: IoFault)
    requires s.Valid()
    ensures CreateFileStep(s, p, content, fault).0.Valid()
  {
  }

  lemma AncestryClosed(p: Path, d: Path)
    requires d in Ancestry(p) && d != []
    ensures Parent(d) in Ancestry(p)
  {
    var k :| 0 <= k <= |p| && d == p[..k];
    assert Parent(d) == p[..k - 1];
  }

  /** `create_dir_all` keeps the tree well formed: it never turns a file into a directory. */
  lemma CreateDirAllPreservesValid(s: FsState, p: Path)
    requires s.Valid()
    ensures CreateDirAllStep(s, p).0.Valid()
  {
    var s' := CreateDirAllStep(s, p).0;
    if !s.Blocked(p) {
      forall d | d in Ancestry(p)
        ensures d !in s.files
      {
        var k :| 0 <= k <= |p| && d == p[..k];
        if k == 0 {
          assert d == [];
        } else {
          assert p[..k] !in s.files;
        }
      }
      forall d | d in s'.dirs && d != []
        ensures Parent(d) in s'.dirs
      {
        if d in Ancestry(p) {
          AncestryClosed(p, d);
        }
      }
    }
  }

  /** The working directory the commands run in. */
  class Disk {
    var files: map<Path, string>
    var dirs: set<Path>

    function State(): FsState
      reads this
    {
      FsState(files, dirs)
    }

    predicate Exists(p: Path)
      reads this
    {
      p in files || p in dirs
    }

    /** An empty working directory. */
    constructor ()
      ensures State() == FsState(map[], {[]}) && State().Valid()
    {
      files := map[];
      dirs := {[]};
    }

    /**
     * `utils::create_file`: writes `content` to `p` only if nothing exists
     * there yet; never creates the parent directory.
     */
    method CreateFile(p: Path, content: string, fault: IoFault) returns (r: Result<(), FsError>)
      modifies this
      ensures (State(), r) == CreateFileStep(old(State()), p, content, fault)
    {
      if !(p in files || p in dirs) {
        if p == [] || p[..|p| - 1] !in dirs {
          return Err(CreateFailed(p));
        }
        match fault {
          case Healthy =>
            files := files[p := content];
            r := Ok(());
          case CreateFails =>
            r := Err(CreateFailed(p));
          case WriteFails(n) =>
            files := files[p := content[..Min(n, |content|)]];
            r := Err(WriteFailed(p));
        }
      } else {
        r := Ok(());
      }
    }

    /** `fs::create_dir_all`: looks for a file in the way first, then creates every missing directory. */
    method CreateDirAll(p: Path) returns (r: Result<(), FsError>)
      modifies this
      ensures (State(), r) == CreateDirAllStep(old(State()), p)
    {
      for k := 1 to |p| + 1
        invariant forall j :: 1 <= j < k ==> p[..j] !in files
      {
        if p[..k] in files {
          return Err(DirCreateFailed(p));
        }
      }
      dirs := dirs + Ancestry(p);
      r := Ok(());
    }
  }
}
