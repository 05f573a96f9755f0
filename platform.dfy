/** What the launcher asks of Windows: the file system, the shortcut reader and the shell's
    icon extractor, as abstract data. */
module Platform {
  import opened Wrappers
  import Text

  /** A snapshot of the machine as the launcher sees it.
      - `dirs`: the directories (`os.path.isdir`) and what `os.listdir` enumerates in each;
      - `files`: the regular files (`os.path.isfile`);
      - `existing`: every path `os.path.exists` accepts;
      - `links`: for each shortcut file the `Targetpath` that `WScript.Shell` reads from it;
        a shortcut missing here is one whose reading raises;
      - `shellIcons`: the files for which `SHGetFileInfoW` yields an icon that converts and
        saves as a PNG, each with whether that PNG decodes when opened again. */
  datatype FileSystem = FileSystem(
    dirs: map<string, seq<string>>,
    files: set<string>,
    existing: set<string>,
    links: map<string, string>,
    shellIcons: map<string, bool>)

  /** `resolve_shortcut_target` (launcher.py:55-75): the real target of a shortcut, the path
      itself for an executable or internet shortcut, and nothing otherwise. A failure to read
      the shortcut degrades to `None`. */
  function ResolveShortcutTarget(path: string, fs: FileSystem): (r: Option<string>)
    ensures r.Some? ==> r.value == path || (r.value != "" && r.value in fs.existing)
  {
    var lower := Text.Lower(path);
    if Text.EndsWith(lower, ".lnk") then
      if path !in fs.links then None
      else
        var target := fs.links[path];
        if target != "" && target in fs.existing then Some(target) else None
    else if Text.EndsWith(lower, ".exe") || Text.EndsWith(lower, ".url") then Some(path)
    else None
  }

  /** An executable or internet shortcut, in any case, is its own target. */
  lemma ResolveDirect(path: string, fs: FileSystem)
    requires Text.EndsWith(Text.Lower(path), ".exe") || Text.EndsWith(Text.Lower(path), ".url")
    ensures ResolveShortcutTarget(path, fs) == Some(path)
  {
    var lower := Text.Lower(path);
    assert lower[|lower| - 1] != 'k';
  }

  /** A shortcut resolves to its stored target exactly when that target is non-empty and
      exists; an unreadable shortcut resolves to nothing. */
  lemma ResolveLink(path: string, fs: FileSystem)
    requires Text.EndsWith(Text.Lower(path), ".lnk")
    ensures ResolveShortcutTarget(path, fs).Some? <==>
      path in fs.links && fs.links[path] != "" && fs.links[path] in fs.existing
    ensures ResolveShortcutTarget(path, fs).Some? ==>
      ResolveShortcutTarget(path, fs).value == fs.links[path]
  {
  }

  /** Any other extension resolves to nothing. */
  lemma ResolveOther(path: string, fs: FileSystem)
    requires !Text.EndsWith(Text.Lower(path), ".lnk")
    requires !Text.EndsWith(Text.Lower(path), ".exe") && !Text.EndsWith(Text.Lower(path), ".url")
    ensures ResolveShortcutTarget(path, fs) == None
  {
  }

  /** `extract_icon_png` (launcher.py:132-191) seen from outside: it answers the output path
      after writing the PNG there, and `None` when the file does not exist or the shell gives
      no usable icon. */
  function ExtractIconPng(filePath: string, outPath: string, fs: FileSystem): (r: Option<string>)
    ensures r.Some? <==> filePath in fs.existing && filePath in fs.shellIcons
    ensures r.Some? ==> r.value == outPath
  {
    if filePath !in fs.existing then None
    else if filePath !in fs.shellIcons then None
    else Some(outPath)
  }
}
