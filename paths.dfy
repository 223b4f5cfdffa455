/** The std::filesystem::path operations the jobs use, on '/'-separated paths:
    operator/ (Join), parent_path, filename, stem and extension. */
module Paths {
  import opened Wrappers
  import opened Text

  const Separator := '/'

  /** No empty path element: two separators never follow each other. */
  predicate NoDoubleSeparator(p: string) {
    forall i :: 0 < i < |p| ==> !(p[i - 1] == Separator && p[i] == Separator)
  }

  /** operator/: an absolute right side replaces the left one, an empty left side
      yields the right side, and a separator is inserted only when the left side
      does not already end with one. */
  function Join(dir: string, name: string): (p: string)
    ensures |name| > 0 && name[0] == Separator ==> p == name
    ensures EndsWith(p, name)
    ensures dir != [] && !(|name| > 0 && name[0] == Separator) ==> StartsWith(p, dir)
  {
    if |name| > 0 && name[0] == Separator then name
    else if dir == [] then name
    else if dir[|dir| - 1] == Separator then dir + name
    else dir + [Separator] + name
  }

  /** parent_path: everything before the last separator; the root "/" when that
      separator is the first character; empty when there is none. */
  function ParentPath(p: string): (r: string)
    ensures |r| <= |p|
    ensures Separator !in p ==> r == []
  {
    match LastIndexOf(p, Separator)
    case None => []
    case Some(k) => if k == 0 then [Separator] else p[..k]
  }

  /** filename: everything after the last separator. */
  function Filename(p: string): (r: string)
    ensures Separator !in r
    ensures EndsWith(p, r)
  {
    match LastIndexOf(p, Separator)
    case None => p
    case Some(k) =>
      p[k + 1..]
  }

  /** The position of the dot that starts the extension of a file name, if any:
      the last dot, unless it is the first character or the name is "." or "..". */
  function ExtensionDot(f: string): (r: Option<nat>)
    ensures r.Some? ==> 0 < r.value < |f| && f[r.value] == '.'
    ensures r.Some? ==> forall k :: r.value < k < |f| ==> f[k] != '.'
  {
    if f == "." || f == ".." then None
    else match LastIndexOf(f, '.')
      case None => None
      case Some(k) => if k == 0 then None else Some(k)
  }

  /** stem: the file name without its extension. */
  function Stem(p: string): (r: string)
    ensures StartsWith(Filename(p), r)
  {
    var f := Filename(p);
    match ExtensionDot(f)
    case None => f
    case Some(k) => f[..k]
  }

  /** A stem is part of a file name, so it has no separator. */
  lemma StemHasNoSeparator(input: string)
    ensures Separator !in Stem(input)
  {
    var f := Filename(input);
    assert StartsWith(f, Stem(input));
    forall i | 0 <= i < |Stem(input)|
      ensures Stem(input)[i] != Separator
    {
      assert Stem(input)[i] == f[i];
    }
  }

  /** extension: the file name from the extension dot on, or empty. */
  function Extension(p: string): (r: string)
    ensures r == [] || r[0] == '.'
    ensures EndsWith(Filename(p), r)
  {
    var f := Filename(p);
    match ExtensionDot(f)
    case None => []
    case Some(k) => f[k..]
  }

  /** stem and extension split the file name without losing a character. */
  lemma StemExtension(p: string)
    ensures Stem(p) + Extension(p) == Filename(p)
  {
    var f := Filename(p);
    match ExtensionDot(f)
    case None =>
    case Some(k) => assert f[..k] + f[k..] == f;
  }

  /** A path is its parent path joined with its file name. */
  lemma JoinParentFilename(p: string)
    requires NoDoubleSeparator(p)
    ensures Join(ParentPath(p), Filename(p)) == p
  {
    match LastIndexOf(p, Separator)
    case None =>
    case Some(k) =>
      if k == 0 {
        assert [Separator] + p[1..] == p;
      } else {
        assert p[k - 1] != Separator;
        assert p[..k] + [Separator] + p[k + 1..] == p;
      }
  }

  /** Joining a plain name onto the parent of p yields a sibling of p: a path
      whose parent is that same directory and whose file name is the name. */
  lemma InDirectory(p: string, name: string)
    requires NoDoubleSeparator(p)
    requires Separator !in name
    ensures ParentPath(Join(ParentPath(p), name)) == ParentPath(p)
    ensures Filename(Join(ParentPath(p), name)) == name
  {
    var d := ParentPath(p);
    var q := Join(d, name);
    match LastIndexOf(p, Separator)
    case None =>
      assert q == name;
    case Some(k) =>
      if k == 0 {
        assert q == [Separator] + name;
        assert LastIndexOf(q, Separator) == Some(0) by { LastIndexOfAt(q, Separator, 0); }
      } else {
        assert p[k - 1] != Separator;
        assert q == p[..k] + [Separator] + name;
        assert LastIndexOf(q, Separator) == Some(k) by { LastIndexOfAt(q, Separator, k); }
        assert q[..k] == p[..k];
      }
  }

  /** A name made of the input's stem and a separator-free suffix lands in the
      input's directory under exactly that name. */
  lemma StemNameBesideInput(input: string, suffix: string)
    requires NoDoubleSeparator(input)
    requires Separator !in suffix
    ensures ParentPath(Join(ParentPath(input), Stem(input) + suffix)) == ParentPath(input)
    ensures Filename(Join(ParentPath(input), Stem(input) + suffix)) == Stem(input) + suffix
  {
    StemHasNoSeparator(input);
    InDirectory(input, Stem(input) + suffix);
  }
}
