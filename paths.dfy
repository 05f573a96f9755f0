/** Windows path helpers the scanner and the icon cache rely on: `os.path.join`,
    `os.path.splitext` and the recognised extensions. */
module Paths {
  import Text

  predicate IsSep(c: char)
  {
    c == '\\' || c == '/'
  }

  predicate NoSep(s: string)
  {
    forall i :: 0 <= i < |s| ==> !IsSep(s[i])
  }

  /** A drive letter and colon with nothing after them, such as "C:". */
  predicate IsBareDrive(folder: string)
  {
    |folder| == 2 && folder[1] == ':'
  }

  /** `os.path.join(folder, name)` on Windows for a relative name with no drive, root or
      separator (a directory entry or a slug-named file): a backslash is inserted unless the
      folder is empty, already ends in a separator, or is a bare drive. */
  function JoinPath(folder: string, name: string): string
  {
    if folder == [] || IsSep(folder[|folder| - 1]) || IsBareDrive(folder) then folder + name
    else folder + "\\" + name
  }

  /** The joined path starts with the folder and ends with the name. */
  lemma JoinPathEnds(folder: string, name: string)
    ensures folder <= JoinPath(folder, name)
    ensures Text.EndsWith(JoinPath(folder, name), name)
  {
    var r := JoinPath(folder, name);
    assert r[..|folder|] == folder;
    assert r[|r| - |name|..] == name;
  }

  /** Within one folder, different names give different paths. */
  lemma JoinPathInjective(folder: string, a: string, b: string)
    requires JoinPath(folder, a) == JoinPath(folder, b)
    ensures a == b
  {
    var n := |JoinPath(folder, a)| - |folder|;
    if folder == [] || IsSep(folder[|folder| - 1]) || IsBareDrive(folder) {
      assert a == JoinPath(folder, a)[|folder|..];
    } else {
      assert a == JoinPath(folder, a)[|folder| + 1..];
    }
  }

  /** The position of the last `c` in `s`, or -1 when there is none (Python's `rfind`). */
  function LastIndexOf(s: string, c: char): (r: int)
    ensures -1 <= r < |s|
    ensures r >= 0 ==> s[r] == c
    ensures forall k :: r < k < |s| ==> s[k] != c
  {
    if s == [] then -1
    else if s[|s| - 1] == c then |s| - 1
    else LastIndexOf(s[..|s| - 1], c)
  }

  predicate AllDots(s: string)
  {
    forall i :: 0 <= i < |s| ==> s[i] == '.'
  }

  /** `os.path.splitext(p)[0]`: `p` without its extension. The extension starts at the last
      dot after the last separator; dots that only lead the file name (".lnk", "..exe") do
      not start an extension. */
  function Stem(p: string): (r: string)
    ensures r <= p
  {
    var sep := if LastIndexOf(p, '\\') < LastIndexOf(p, '/') then LastIndexOf(p, '/')
               else LastIndexOf(p, '\\');
    var dot := LastIndexOf(p, '.');
    if dot > sep && !AllDots(p[sep + 1..dot]) then p[..dot] else p
  }

  /** The entries the scanner keeps: names ending in ".lnk", ".url" or ".exe" in any case. */
  predicate HasLaunchableExtension(name: string)
  {
    var lower := Text.Lower(name);
    Text.EndsWith(lower, ".lnk") || Text.EndsWith(lower, ".url") || Text.EndsWith(lower, ".exe")
  }

  /** A launchable name ends in a dot followed by three characters that are not dots. */
  lemma LaunchableTail(name: string)
    requires HasLaunchableExtension(name)
    ensures |name| >= 4 && name[|name| - 4] == '.'
    ensures forall k :: |name| - 4 < k < |name| ==> name[k] != '.'
  {
    var n := |name|;
    var lower := Text.Lower(name);
    var ext := lower[n - 4..];
    assert ext == ".lnk" || ext == ".url" || ext == ".exe";
    assert lower[n - 4] == ext[0] == '.';
    forall k | n - 4 < k < n
      ensures name[k] != '.'
    {
      assert lower[k] == ext[k - (n - 4)] != '.';
    }
  }

  /** A launchable entry's name loses exactly its four-character extension, unless nothing
      but dots stands before it, in which case the name is kept whole. */
  lemma StemOfLaunchable(name: string)
    requires NoSep(name)
    requires HasLaunchableExtension(name)
    ensures |name| >= 4
    ensures Stem(name) == if AllDots(name[..|name| - 4]) then name else name[..|name| - 4]
  {
    LaunchableTail(name);
    var n := |name|;
    var dot := LastIndexOf(name, '.');
    assert dot == n - 4 by {
      assert dot >= n - 4;
      assert name[dot] == '.';
    }
    assert LastIndexOf(name, '\\') == -1 && LastIndexOf(name, '/') == -1 by {
      var b := LastIndexOf(name, '\\');
      var f := LastIndexOf(name, '/');
      assert b >= 0 ==> IsSep(name[b]);
      assert f >= 0 ==> IsSep(name[f]);
    }
    assert name[0..n - 4] == name[..n - 4];
  }
}
