/** The thumbnail store as the thumbnailer sees it through `tokio::fs`: a file system of
    files and directories, with the host's failures given as fixed fault sets. */
module ThumbStore {

  import opened Paths
  import opened Bytes
  import opened Outcomes

  datatype FsState = FsState(files: map<Path, seq<byte>>, dirs: set<Path>)

  /** What the host decides and the model cannot see: paths whose metadata query fails
      with an error other than "not found", missing directories the host refuses to
      create, and files that cannot be written (permissions, full disk, ...). */
  datatype Faults = Faults(statFails: set<Path>, mkdirFails: set<Path>, writeFails: set<Path>)

  datatype IoErrorKind = NotFound | OtherIoError

  /** The root and the empty relative path always exist as directories. */
  predicate IsDir(st: FsState, p: Path)
  {
    p.comps == [] || p in st.dirs
  }

  /** p sits in an existing directory. */
  predicate InDirectory(st: FsState, p: Path)
  {
    Parent(p).Some? && IsDir(st, Parent(p).value)
  }

  /** A state some file system can be in: no path is both a file and a directory, and
      every file and every directory sits in an existing directory. */
  predicate Consistent(st: FsState)
  {
    && st.files.Keys !! st.dirs
    && (forall p :: p in st.files ==> InDirectory(st, p))
    && (forall d :: d in st.dirs ==> InDirectory(st, d))
  }

  /** `fs::metadata(p)`: succeeds for an existing file or directory. */
  function MetadataResult(st: FsState, faults: Faults, p: Path): (r: Result<(), IoErrorKind>)
    ensures r.Ok? <==> p !in faults.statFails && (p in st.files || IsDir(st, p))
    ensures r == Err(NotFound) <==> p !in faults.statFails && p !in st.files && !IsDir(st, p)
  {
    if p in faults.statFails then Err(OtherIoError)
    else if p in st.files || IsDir(st, p) then Ok(())
    else Err(NotFound)
  }

  /** p and every directory above it, the root excepted. */
  function Ancestors(p: Path): (r: set<Path>)
    ensures p.comps != [] ==> p in r
    ensures forall a :: a in r ==> StartsWith(p, a) && |a.comps| <= |p.comps|
  {
    assert p.comps != [] ==> p.comps[..|p.comps|] == p.comps;
    set i | 1 <= i <= |p.comps| :: Path(p.absolute, p.comps[..i])
  }

  /** The directories `create_dir_all(p)` has to make: p and its ancestors that are not
      directories yet. */
  function Missing(st: FsState, p: Path): (r: set<Path>)
    ensures r <= Ancestors(p)
    ensures IsDir(st, p) ==> p !in r
  {
    set a | a in Ancestors(p) && !IsDir(st, a)
  }

  /** `fs::create_dir_all(p)`: an existing directory is success with nothing changed;
      otherwise it fails when some path on the way is an existing file or the host refuses
      to create one of the missing directories, and succeeds by making p and all its
      ancestors directories. */
  function CreateDirAllResult(st: FsState, faults: Faults, p: Path): (r: Result<FsState, IoErrorKind>)
    ensures r.Ok? <==> IsDir(st, p) || (Ancestors(p) !! st.files.Keys && Missing(st, p) !! faults.mkdirFails)
    ensures r.Ok? ==>
      && r.value.files == st.files && IsDir(r.value, p)
      && r.value.dirs == (if IsDir(st, p) then st.dirs else st.dirs + Ancestors(p))
    ensures r.Ok? && Consistent(st) ==> Consistent(r.value)
  {
    if IsDir(st, p) then Ok(st)
    else if !(Ancestors(p) !! st.files.Keys) || !(Missing(st, p) !! faults.mkdirFails) then Err(OtherIoError)
    else
      AddingAncestorsKeepsConsistent(st, p);
      Ok(st.(dirs := st.dirs + Ancestors(p)))
  }

  /** Each ancestor's parent is the root or the next ancestor up, so adding the whole
      chain keeps every directory inside a directory. */
  lemma AddingAncestorsKeepsConsistent(st: FsState, p: Path)
    requires Ancestors(p) !! st.files.Keys
    ensures Consistent(st) ==> Consistent(st.(dirs := st.dirs + Ancestors(p)))
  {
    var st' := st.(dirs := st.dirs + Ancestors(p));
    if Consistent(st) {
      forall q | q in st.files || q in st.dirs
        ensures InDirectory(st', q)
      {
        assert InDirectory(st, q);
      }
      forall d | d in Ancestors(p)
        ensures InDirectory(st', d)
      {
        var i :| 1 <= i <= |p.comps| && d == Path(p.absolute, p.comps[..i]);
        assert d.comps[..i - 1] == p.comps[..i - 1];
        if i > 1 {
          assert Path(p.absolute, p.comps[..i - 1]) in Ancestors(p);
        }
      }
    }
  }

  /** Creating a directory tree twice: the second call succeeds and changes nothing,
      whatever the host would refuse. */
  lemma CreateDirAllIdempotent(st: FsState, faults: Faults, p: Path)
    requires CreateDirAllResult(st, faults, p).Ok?
    ensures var st1 := CreateDirAllResult(st, faults, p).value;
      CreateDirAllResult(st1, faults, p) == Ok(st1)
  {
  }

  /** `fs::write(p, data)`: needs an existing parent directory and p not itself a
      directory; replaces any previous content. */
  predicate CanWrite(st: FsState, faults: Faults, p: Path)
  {
    && p !in faults.writeFails
    && !IsDir(st, p)
    && Parent(p).Some? && IsDir(st, Parent(p).value)
  }

  function WriteResult(st: FsState, faults: Faults, p: Path, data: seq<byte>): (r: Result<FsState, IoErrorKind>)
    ensures r.Ok? <==> CanWrite(st, faults, p)
    ensures r.Ok? ==> r.value.dirs == st.dirs && r.value.files == st.files[p := data]
    ensures r.Ok? && Consistent(st) ==> Consistent(r.value)
  {
    if CanWrite(st, faults, p) then Ok(st.(files := st.files[p := data])) else Err(OtherIoError)
  }

  /** The file system, changed in place by the operations the thumbnailer calls. */
  class FileSystem {
    const faults: Faults
    var files: map<Path, seq<byte>>
    var dirs: set<Path>

    function State(): FsState
      reads this
    {
      FsState(files, dirs)
    }

    constructor (faults: Faults, st: FsState)
      ensures this.faults == faults && State() == st
    {
      this.faults := faults;
      files, dirs := st.files, st.dirs;
    }

    method Metadata(p: Path) returns (r: Result<(), IoErrorKind>)
      ensures r == MetadataResult(State(), faults, p)
    {
      r := MetadataResult(State(), faults, p);
    }

    method CreateDirAll(p: Path) returns (r: Result<(), IoErrorKind>)
      modifies this
      ensures var s := CreateDirAllResult(old(State()), faults, p);
        if s.Ok? then r.Ok? && State() == s.value else r == Err(s.error) && State() == old(State())
    {
      var s := CreateDirAllResult(State(), faults, p);
      if s.Ok? {
        dirs := s.value.dirs;
        r := Ok(());
      } else {
        r := Err(s.error);
      }
    }

    method Write(p: Path, data: seq<byte>) returns (r: Result<(), IoErrorKind>)
      modifies this
      ensures var s := WriteResult(old(State()), faults, p, data);
        if s.Ok? then r.Ok? && State() == s.value else r == Err(s.error) && State() == old(State())
    {
      var s := WriteResult(State(), faults, p, data);
      if s.Ok? {
        files := s.value.files;
        r := Ok(());
      } else {
        r := Err(s.error);
      }
    }
  }
}
