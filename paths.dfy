/** Rust's `std::path` as the thumbnailer and the library-file responder use it on Unix:
    a path is a root flag and a sequence of components; strings are parsed into
    components on `/`; `push`, `join` and `extend` append (an absolute argument replaces
    the whole path); `set_extension` rewrites the final file name; `starts_with` compares
    components without normalising `..`. */
module Paths {

  import opened Outcomes

  datatype Component = CurDir | ParentDir | Normal(name: string)

  /** `absolute` is the leading `RootDir` component. */
  datatype Path = Path(absolute: bool, comps: seq<Component>)

  const Separator: char := '/'

  /** The pieces of s between separators (empty pieces included). */
  function Split(s: string): (r: seq<string>)
    ensures |r| >= 1
  {
    if s == [] then [""]
    else if s[0] == Separator then [""] + Split(s[1..])
    else
      var t := Split(s[1..]);
      [[s[0]] + t[0]] + t[1..]
  }

  /** The inverse of Split: pieces glued back with separators. */
  function JoinPieces(pieces: seq<string>): string
    requires |pieces| >= 1
  {
    if |pieces| == 1 then pieces[0] else pieces[0] + [Separator] + JoinPieces(pieces[1..])
  }

  lemma {:induction false} JoinPiecesOfSplit(s: string)
    ensures JoinPieces(Split(s)) == s
  {
    if s != [] {
      JoinPiecesOfSplit(s[1..]);
      var t := Split(s[1..]);
      if s[0] != Separator {
        if |t| == 1 {
          assert Split(s) == [[s[0]] + t[0]];
        } else {
          assert Split(s)[1..] == t[1..];
          assert JoinPieces(Split(s)) == [s[0]] + t[0] + [Separator] + JoinPieces(t[1..]);
        }
      } else {
        assert Split(s)[1..] == t;
      }
    }
  }

  lemma {:induction false} SplitWithoutSeparator(s: string)
    requires Separator !in s
    ensures Split(s) == [s]
  {
    if s != [] {
      assert Separator !in s[1..] by {
        forall i | 0 <= i < |s[1..]| ensures s[1..][i] != Separator { assert s[1..][i] == s[i + 1]; }
      }
      SplitWithoutSeparator(s[1..]);
      assert [s[0]] + s[1..] == s;
    }
  }

  /** No piece contains a separator. */
  lemma {:induction false} SplitPiecesHaveNoSeparator(s: string)
    ensures forall i :: 0 <= i < |Split(s)| ==> Separator !in Split(s)[i]
  {
    if s != [] {
      SplitPiecesHaveNoSeparator(s[1..]);
      var t := Split(s[1..]);
      if s[0] != Separator {
        assert Split(s) == [[s[0]] + t[0]] + t[1..];
        assert forall i :: 1 <= i < |Split(s)| ==> Split(s)[i] == t[i];
      } else {
        assert forall i :: 1 <= i < |Split(s)| ==> Split(s)[i] == t[i - 1];
      }
    }
  }

  /** One non-empty piece as a component: `..` is the parent directory. */
  function PieceComponent(piece: string): Component
  {
    if piece == ".." then ParentDir else Normal(piece)
  }

  /** The components of the pieces after the first: empty pieces (repeated or trailing
      separators) and `.` pieces vanish. */
  function PieceComponents(pieces: seq<string>): (r: seq<Component>)
  {
    if pieces == [] then []
    else if pieces[0] == "" || pieces[0] == "." then PieceComponents(pieces[1..])
    else [PieceComponent(pieces[0])] + PieceComponents(pieces[1..])
  }

  /** Parsing drops every `.` and empty piece after the first. */
  lemma {:induction false} PieceComponentsAreNormalised(pieces: seq<string>)
    ensures forall c :: c in PieceComponents(pieces) ==> c != CurDir && c != Normal("") && c != Normal(".")
  {
    if pieces != [] {
      PieceComponentsAreNormalised(pieces[1..]);
    }
  }

  /** `Path::new(s).components()`: a leading `/` is the root; a leading `.` of a relative
      path is kept as `CurDir`; every other `.` and empty piece is dropped. */
  function Parse(s: string): (p: Path)
    ensures p.absolute <==> |s| > 0 && s[0] == Separator
  {
    var pieces := Split(s);
    var absolute := |s| > 0 && s[0] == Separator;
    assert absolute ==> pieces[0] == "";
    if !absolute && pieces[0] == "." then Path(false, [CurDir] + PieceComponents(pieces[1..]))
    else Path(absolute, PieceComponents(pieces))
  }

  /** A string that parses to exactly one normal component: what a hex content id or a
      library id is. */
  predicate IsPlainName(s: string)
  {
    s != [] && s != "." && s != ".." && Separator !in s
  }

  lemma ParsePlainName(s: string)
    requires IsPlainName(s)
    ensures Parse(s) == Path(false, [Normal(s)])
  {
    SplitWithoutSeparator(s);
    assert PieceComponents([s]) == [Normal(s)];
  }

  /** `PathBuf::push(q)`: an absolute q replaces the path; otherwise q's components are
      appended, a leading `.` of q being dropped unless the path is still empty. */
  function Push(p: Path, q: Path): (r: Path)
  {
    if q.absolute then q
    else if |q.comps| > 0 && q.comps[0] == CurDir && (p.absolute || p.comps != []) then
      Path(p.absolute, p.comps + q.comps[1..])
    else Path(p.absolute, p.comps + q.comps)
  }

  function PushStr(p: Path, s: string): Path
  {
    if IsPlainName(s) then Path(p.absolute, p.comps + [Normal(s)]) else Push(p, Parse(s))
  }

  /** Pushing a plain name appends exactly one normal component, as parsing it would. */
  lemma PushPlainName(p: Path, s: string)
    requires IsPlainName(s)
    ensures PushStr(p, s) == Path(p.absolute, p.comps + [Normal(s)]) == Push(p, Parse(s))
  {
    ParsePlainName(s);
  }

  /** `extend(segments)`: push each segment in turn. */
  function ExtendAll(p: Path, segments: seq<string>): Path
    decreases |segments|
  {
    if segments == [] then p else ExtendAll(PushStr(p, segments[0]), segments[1..])
  }

  /** The components pushing each of names appends when every one is a plain name. */
  function Normals(names: seq<string>): (r: seq<Component>)
    ensures |r| == |names|
  {
    if names == [] then [] else [Normal(names[0])] + Normals(names[1..])
  }

  /** Extending by plain names appends one normal component per name, in order. */
  lemma {:induction false} ExtendAllPlainNames(p: Path, names: seq<string>)
    requires forall i :: 0 <= i < |names| ==> IsPlainName(names[i])
    ensures ExtendAll(p, names) == Path(p.absolute, p.comps + Normals(names))
    decreases |names|
  {
    if names != [] {
      var q := Path(p.absolute, p.comps + [Normal(names[0])]);
      assert PushStr(p, names[0]) == q;
      forall i | 0 <= i < |names| - 1 ensures IsPlainName(names[1..][i]) {
        assert names[1..][i] == names[i + 1];
      }
      ExtendAllPlainNames(q, names[1..]);
      assert Normals(names) == [Normal(names[0])] + Normals(names[1..]);
      assert q.comps + Normals(names[1..]) == p.comps + ([Normal(names[0])] + Normals(names[1..]));
    }
  }

  /** The components of names, split at the last name. */
  lemma {:induction false} NormalsSnoc(names: seq<string>)
    requires names != []
    ensures Normals(names) == Normals(names[..|names| - 1]) + [Normal(names[|names| - 1])]
    decreases |names|
  {
    var n := |names|;
    if n > 1 {
      var rest := names[1..];
      NormalsSnoc(rest);
      assert rest[..|rest| - 1] == names[..n - 1][1..];
      assert rest[|rest| - 1] == names[n - 1];
      assert Normals(names[..n - 1]) == [Normal(names[0])] + Normals(rest[..|rest| - 1]);
    }
  }

  /** `Path::starts_with`: base's components, the root among them, form a prefix of p's;
      so the empty relative path is a prefix of every path. */
  predicate StartsWith(p: Path, base: Path)
  {
    || (!base.absolute && base.comps == [])
    || (p.absolute == base.absolute && |base.comps| <= |p.comps| && p.comps[..|base.comps|] == base.comps)
  }

  /** `Path::file_name`: the final component, when it is a normal one. */
  function FileName(p: Path): (r: Option<string>)
    ensures r.Some? <==> |p.comps| > 0 && p.comps[|p.comps| - 1].Normal?
  {
    if |p.comps| > 0 && p.comps[|p.comps| - 1].Normal? then Some(p.comps[|p.comps| - 1].name) else None
  }

  /** `Path::parent`: the path without its final component; none for a path that is only a
      root or empty. */
  function Parent(p: Path): (r: Option<Path>)
    ensures r.Some? <==> |p.comps| > 0
    ensures r.Some? ==> StartsWith(p, r.value) && |r.value.comps| + 1 == |p.comps|
  {
    if |p.comps| > 0 then Some(Path(p.absolute, p.comps[..|p.comps| - 1])) else None
  }

  /** The index of the last `.` in s. */
  function LastDot(s: string): (r: Option<nat>)
    ensures r.None? <==> '.' !in s
    ensures r.Some? ==> r.value < |s| && s[r.value] == '.' && '.' !in s[r.value + 1..]
  {
    if s == [] then None
    else if s[|s| - 1] == '.' then Some(|s| - 1)
    else
      var r := LastDot(s[..|s| - 1]);
      assert s == s[..|s| - 1] + [s[|s| - 1]];
      if r.Some? then
        assert s[r.value + 1..] == s[..|s| - 1][r.value + 1..] + [s[|s| - 1]];
        r
      else r
  }

  /** Rust's `split_file_at_dot` on a file name: the stem and the extension. A name with no
      dot, or whose only dot leads it (`.hidden`), has no extension. */
  function Stem(name: string): string
  {
    if '.' !in name then name else
    var d := LastDot(name);
    if d.None? || d.value == 0 then name else name[..d.value]
  }

  function NameExtension(name: string): Option<string>
  {
    if '.' !in name then None else
    var d := LastDot(name);
    if d.None? || d.value == 0 then None else Some(name[d.value + 1..])
  }

  /** `Path::extension`. */
  function Extension(p: Path): Option<string>
  {
    match FileName(p)
    case None => None
    case Some(name) => NameExtension(name)
  }

  /** `PathBuf::set_extension(ext)`: the final name becomes its stem, followed by `.ext`
      when ext is not empty; a path without a file name is left as it is and the call
      answers false. */
  function WithExtension(p: Path, ext: string): (r: (Path, bool))
    ensures r.1 <==> FileName(p).Some?
    ensures !r.1 ==> r.0 == p
    ensures r.0.absolute == p.absolute && |r.0.comps| == |p.comps|
    ensures r.1 ==> r.0.comps[..|p.comps| - 1] == p.comps[..|p.comps| - 1]
  {
    match FileName(p)
    case None => (p, false)
    case Some(name) =>
      var newName := Stem(name) + (if ext == [] then [] else ['.'] + ext);
      (Path(p.absolute, p.comps[..|p.comps| - 1] + [Normal(newName)]), true)
  }

  /** `set_extension(ext)` with a non-empty ext replaces a final normal name by its stem
      followed by `.ext`, keeping everything before it. */
  lemma SetExtensionOnName(p: Path, ext: string)
    requires |p.comps| > 0 && p.comps[|p.comps| - 1].Normal?
    requires ext != []
    ensures WithExtension(p, ext).0
      == Path(p.absolute, p.comps[..|p.comps| - 1] + [Normal(Stem(p.comps[|p.comps| - 1].name) + "." + ext)])
  {
    var stem := Stem(p.comps[|p.comps| - 1].name);
    assert stem + (['.'] + ext) == stem + "." + ext;
  }

  /** On a dot-free final name, `set_extension(ext)` appends `.ext`. */
  lemma SetExtensionOnDotFreeName(p: Path, ext: string)
    requires |p.comps| > 0 && p.comps[|p.comps| - 1].Normal? && '.' !in p.comps[|p.comps| - 1].name
    requires ext != []
    ensures WithExtension(p, ext).0
      == Path(p.absolute, p.comps[..|p.comps| - 1] + [Normal(p.comps[|p.comps| - 1].name + "." + ext)])
  {
    var name := p.comps[|p.comps| - 1].name;
    assert Stem(name) == name;
    assert name + (['.'] + ext) == name + "." + ext;
  }

  /** A name made of a non-empty stem, a dot and a dot-free ext has extension ext. */
  lemma NameExtensionOfDotted(stem: string, ext: string)
    requires stem != [] && '.' !in ext
    ensures NameExtension(stem + "." + ext) == Some(ext)
  {
    var name := stem + "." + ext;
    assert name[|stem|] == '.';
    assert name[|stem| + 1..] == ext;
    assert LastDot(name) == Some(|stem|);
  }

  /** After `set_extension(ext)` with a non-empty, dot-free ext on a path with a file name,
      `extension()` is exactly ext. */
  lemma {:induction false} ExtensionAfterSetExtension(p: Path, ext: string)
    requires FileName(p).Some? && FileName(p).value != []
    requires ext != [] && '.' !in ext
    ensures Extension(WithExtension(p, ext).0) == Some(ext)
  {
    var name := FileName(p).value;
    var stem := Stem(name);
    var newName := stem + (['.'] + ext);
    assert stem != [];
    assert LastDot(newName) == Some(|stem|) by {
      assert newName[|stem|] == '.';
      assert newName[|stem| + 1..] == ext;
    }
    assert newName[|stem| + 1..] == ext;
    assert FileName(WithExtension(p, ext).0) == Some(newName);
  }

  /** `PathBuf`: an owned path changed in place. */
  class PathBuf {
    var value: Path

    constructor (p: Path)
      ensures value == p
    {
      value := p;
    }

    method Push(s: string)
      modifies this
      ensures value == PushStr(old(value), s)
    {
      value := PushStr(value, s);
    }

    method Extend(segments: seq<string>)
      modifies this
      ensures value == ExtendAll(old(value), segments)
    {
      var i := 0;
      while i < |segments|
        invariant 0 <= i <= |segments|
        invariant ExtendAll(value, segments[i..]) == ExtendAll(old(value), segments)
      {
        assert segments[i..][1..] == segments[i + 1..];
        value := PushStr(value, segments[i]);
        i := i + 1;
      }
    }

    method SetExtension(ext: string) returns (changed: bool)
      modifies this
      ensures (value, changed) == WithExtension(old(value), ext)
    {
      var r := WithExtension(value, ext);
      value, changed := r.0, r.1;
    }
  }

  /** `Path::join(s)`: a fresh path with s pushed. */
  method Join(p: Path, s: string) returns (b: PathBuf)
    ensures fresh(b) && b.value == PushStr(p, s)
  {
    b := new PathBuf(p);
    b.Push(s);
  }
}
