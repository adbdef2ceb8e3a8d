/** `System.IO.Path.GetFileName` and `GetFileNameWithoutExtension` as they
    behave on Windows: the file name starts after the last `\` or `/`, never
    inside a drive root such as `C:`, and the extension starts at the last `.`
    of the file name. */
module WindowsPath {
  import opened Wrappers

  predicate IsDirectorySeparator(c: char) {
    c == '\\' || c == '/'
  }

  predicate NoSeparator(s: string) {
    forall i :: 0 <= i < |s| ==> !IsDirectorySeparator(s[i])
  }

  predicate IsAsciiLetter(c: char) {
    ('a' <= c <= 'z') || ('A' <= c <= 'Z')
  }

  /** Length of a drive-relative root `X:`, the part of a path the file name
      never reaches into. */
  function DriveRootLength(path: string): (n: nat)
    ensures n <= |path|
  {
    if |path| >= 2 && path[1] == ':' && IsAsciiLetter(path[0]) then 2 else 0
  }

  /** Index of the last directory separator in `path`, if any. */
  function LastSeparator(path: string): (r: Option<nat>)
    ensures r.None? <==> NoSeparator(path)
    ensures r.Some? ==> r.value < |path| && IsDirectorySeparator(path[r.value])
    ensures r.Some? ==> NoSeparator(path[r.value + 1..])
  {
    if path == [] then None
    else if IsDirectorySeparator(path[|path| - 1]) then Some(|path| - 1)
    else
      var r := LastSeparator(path[..|path| - 1]);
      assert r.Some? ==> path[r.value + 1..] == path[..|path| - 1][r.value + 1..] + [path[|path| - 1]];
      r
  }

  /** Index of the last occurrence of `c` in `s`, if any. */
  function LastIndexOf(s: string, c: char): (r: Option<nat>)
    ensures r.None? <==> c !in s
    ensures r.Some? ==> r.value < |s| && s[r.value] == c && c !in s[r.value + 1..]
  {
    if s == [] then None
    else if s[|s| - 1] == c then Some(|s| - 1)
    else
      var r := LastIndexOf(s[..|s| - 1], c);
      assert s == s[..|s| - 1] + [s[|s| - 1]];
      assert r.Some? ==> s[r.value + 1..] == s[..|s| - 1][r.value + 1..] + [s[|s| - 1]];
      r
  }

  /** `Path.GetFileName(path)`. */
  function FileName(path: string): (r: string)
    ensures NoSeparator(r)
    ensures |r| <= |path| && r == path[|path| - |r|..]
  {
    var root := DriveRootLength(path);
    var start := match LastSeparator(path)
      case None => root
      case Some(i) => if i < root then root else i + 1;
    assert NoSeparator(path[start..]) by {
      if LastSeparator(path).Some? && LastSeparator(path).value >= root {
      } else {
        assert NoSeparator(path);
      }
    }
    path[start..]
  }

  /** `Path.GetFileNameWithoutExtension(path)` for a non-null `path`. */
  function FileNameWithoutExtension(path: string): (r: string)
    ensures NoSeparator(r)
    ensures r <= FileName(path)
  {
    var name := FileName(path);
    match LastIndexOf(name, '.')
    case None => name
    case Some(k) => name[..k]
  }

  /** A file `stem.ext` inside any directory yields `stem`, provided the
      extension holds no further `.` and neither part holds a separator. */
  lemma FileNameWithoutExtensionOfFile(dir: string, stem: string, ext: string)
    requires NoSeparator(stem) && NoSeparator(ext) && '.' !in ext
    ensures FileNameWithoutExtension(dir + "\\" + stem + "." + ext) == stem
  {
    var name := stem + "." + ext;
    assert dir + "\\" + stem + "." + ext == dir + "\\" + name;
    assert NoSeparator(name) by {
      assert forall i :: 0 <= i < |name| ==> name[i] == if i < |stem| then stem[i] else if i == |stem| then '.' else ext[i - |stem| - 1];
    }
    FileNameInDirectory(dir, name);
    DropExtension(stem, ext);
  }

  /** Whatever follows the last separator is the file name. */
  lemma FileNameInDirectory(dir: string, name: string)
    requires NoSeparator(name)
    ensures FileName(dir + "\\" + name) == name
  {
    var path := dir + "\\" + name;
    var sep := |dir|;
    assert path[sep] == '\\';
    assert path[sep + 1..] == name;
    var last := LastSeparator(path);
    assert last.Some? && last.value == sep;
    assert DriveRootLength(path) <= sep + 1;
  }

  /** The extension starts at the last `.`. */
  lemma DropExtension(stem: string, ext: string)
    requires '.' !in ext
    ensures LastIndexOf(stem + "." + ext, '.') == Some(|stem|)
    ensures (stem + "." + ext)[..|stem|] == stem
  {
    var name := stem + "." + ext;
    assert name[|stem|] == '.';
    assert name[|stem| + 1..] == ext;
  }
}
