/**
 * POSIX paths as `pathlib.PurePosixPath` sees them: an absolute flag and the
 * list of components, with empty and "." components dropped when parsing.
 */
module Paths {
  import opened Text
  import opened Lists

  datatype Path = Path(absolute: bool, parts: seq<string>)

  /** A component as pathlib keeps it: non-empty, not ".", no separator. */
  predicate ValidPart(part: string)
  {
    part != "" && part != "." && '/' !in part
  }

  predicate WellFormed(p: Path)
  {
    forall i :: 0 <= i < |p.parts| ==> ValidPart(p.parts[i])
  }

  /** The components pathlib discards while parsing. */
  const Ignored: set<string> := {"", "."}

  /** `Path(s)`: absolute iff `s` starts with a separator; components in order. */
  function Parse(s: string): (p: Path)
    ensures WellFormed(p)
    ensures p.absolute <==> |s| > 0 && s[0] == '/'
  {
    var pieces := Split(s, '/');
    var parts := Without(pieces, Ignored);
    assert forall i :: 0 <= i < |parts| ==> ValidPart(parts[i]) by {
      forall i | 0 <= i < |parts|
        ensures ValidPart(parts[i])
      {
        assert parts[i] in pieces;
      }
    }
    Path(|s| > 0 && s[0] == '/', parts)
  }

  /** `str(path)`: "." for the empty relative path, a leading "/" when absolute. */
  function Render(p: Path): string
  {
    if p.absolute then "/" + Join(p.parts, "/")
    else if |p.parts| == 0 then "."
    else Join(p.parts, "/")
  }

  lemma WithoutNothingToDrop(xs: seq<string>, drop: set<string>)
    requires forall i :: 0 <= i < |xs| ==> xs[i] !in drop
    ensures Without(xs, drop) == xs
    decreases |xs|
  {
    if |xs| > 0 {
      WithoutNothingToDrop(xs[1..], drop);
      assert [xs[0]] + xs[1..] == xs;
    }
  }

  /** The components of a well-formed path survive rendering and parsing. */
  lemma {:induction false} SplitRenderedParts(parts: seq<string>)
    requires forall i :: 0 <= i < |parts| ==> ValidPart(parts[i])
    ensures Without(Split(Join(parts, "/"), '/'), Ignored) == parts
  {
    if |parts| == 0 {
      assert Split("", '/') == [""];
      assert Without([""], Ignored) == Without([""][1..], Ignored);
    } else {
      SplitJoin(parts, '/');
      WithoutNothingToDrop(parts, Ignored);
    }
  }

  lemma ParseRenderAbsolute(p: Path)
    requires WellFormed(p) && p.absolute
    ensures Parse(Render(p)) == p
  {
    var j := Join(p.parts, "/");
    SplitRenderedParts(p.parts);
    assert Render(p) == "" + ['/'] + j;
    SplitAfterPiece("", '/', j);
    WithoutAppend([""], Split(j, '/'), Ignored);
    assert Without([""], Ignored) == [];
  }

  lemma ParseRenderEmpty(p: Path)
    requires !p.absolute && |p.parts| == 0
    ensures Parse(Render(p)) == p
  {
    SplitNoSeparator(".", '/');
    assert Without(["."], Ignored) == [];
  }

  lemma ParseRenderRelative(p: Path)
    requires WellFormed(p) && !p.absolute && |p.parts| > 0
    ensures Parse(Render(p)) == p
  {
    SplitRenderedParts(p.parts);
    JoinStartsWithFirst(p.parts, "/");
    assert ValidPart(p.parts[0]);
    assert p.parts[0][0] in p.parts[0];
  }

  /** Rendering then parsing gives back every well-formed path. */
  lemma ParseRender(p: Path)
    requires WellFormed(p)
    ensures Parse(Render(p)) == p
  {
    if p.absolute {
      ParseRenderAbsolute(p);
    } else if |p.parts| == 0 {
      ParseRenderEmpty(p);
    } else {
      ParseRenderRelative(p);
    }
  }

  /** Parsing yields pathlib's normal form: rendering and parsing it again changes nothing. */
  lemma ParseNormalForm(s: string)
    ensures Parse(Render(Parse(s))) == Parse(s)
  {
    ParseRender(Parse(s));
  }

  /** `path.parent`: drops the last component; the root and "." are their own parents. */
  function Parent(p: Path): (r: Path)
    ensures r.absolute == p.absolute
    ensures |p.parts| > 0 ==> p.parts == r.parts + [p.parts[|p.parts| - 1]]
    ensures |p.parts| == 0 ==> r == p
  {
    if |p.parts| == 0 then p else Path(p.absolute, p.parts[..|p.parts| - 1])
  }

  /** `path / name` for a single component. */
  function Child(p: Path, name: string): (r: Path)
    requires ValidPart(name)
    ensures Parent(r) == p
    ensures |r.parts| >= 1 && r.parts[|r.parts| - 1] == name
  {
    Path(p.absolute, p.parts + [name])
  }

  /**
   * `_resolve_path(base_dir, value)`: an absolute value is kept, a relative one
   * is joined onto the base directory.
   */
  function ResolvePath(base: Path, value: string): (r: Path)
    ensures Parse(value).absolute ==> r == Parse(value)
    ensures !Parse(value).absolute ==>
      && r.absolute == base.absolute
      && |base.parts| <= |r.parts|
      && r.parts[..|base.parts|] == base.parts
      && r.parts[|base.parts|..] == Parse(value).parts
    ensures WellFormed(base) ==> WellFormed(r)
  {
    var v := Parse(value);
    if v.absolute then v
    else
      var r := Path(base.absolute, base.parts + v.parts);
      assert r.parts[..|base.parts|] == base.parts;
      r
  }

  /** Resolving against an absolute base yields a path that any later resolution leaves alone. */
  lemma {:induction false} ResolveIsStable(base: Path, value: string, other: Path)
    requires base.absolute && WellFormed(base)
    ensures ResolvePath(other, Render(ResolvePath(base, value))) == ResolvePath(base, value)
  {
    var r := ResolvePath(base, value);
    ParseRender(r);
  }

  /** The name of the workspace directory next to the configuration file. */
  const WorkspaceName: string := "workspace"

  /** `path.parent / "workspace"`: the workspace is a sibling of the configuration file. */
  function WorkspaceDir(configFile: Path): (w: Path)
    ensures Parent(w) == Parent(configFile)
    ensures w.absolute == configFile.absolute
    ensures |w.parts| >= 1 && w.parts[|w.parts| - 1] == WorkspaceName
  {
    Child(Parent(configFile), WorkspaceName)
  }
}
