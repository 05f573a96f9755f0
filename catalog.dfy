/** Item discovery: `Item`, `scan_folder` and `scan_all` (launcher.py:34-105). */
module Catalog {
  import opened Wrappers
  import Seqs
  import Text
  import Paths
  import opened Platform

  /** One launchable entry: its display name, the path of the entry itself, the tag of the
      folder it came from and, when resolution succeeded, the real target. */
  datatype Item = Item(name: string, path: string, kind: string, target: Option<string>)

  /** The directories the launcher is configured with. */
  datatype Config = Config(gamesDir: string, launchersDir: string, cacheDir: string)

  /** An entry of `folder` that the scan keeps: a regular file with a launchable extension. */
  predicate IsCandidate(folder: string, entry: string, fs: FileSystem)
  {
    Paths.JoinPath(folder, entry) in fs.files && Paths.HasLaunchableExtension(entry)
  }

  function Launchable(folder: string, fs: FileSystem): string -> bool
  {
    (entry: string) => IsCandidate(folder, entry, fs)
  }

  /** The entries of a listing that the scan keeps, in enumeration order. */
  function Candidates(folder: string, entries: seq<string>, fs: FileSystem): seq<string>
  {
    Seqs.Filter(Launchable(folder, fs), entries)
  }

  /** The item built for a kept entry. */
  function MakeItem(folder: string, entry: string, kind: string, fs: FileSystem): Item
  {
    var path := Paths.JoinPath(folder, entry);
    Item(Paths.Stem(entry), path, kind, ResolveShortcutTarget(path, fs))
  }

  function Builder(folder: string, kind: string, fs: FileSystem): string -> Item
  {
    (entry: string) => MakeItem(folder, entry, kind, fs)
  }

  /** The items built for a sequence of kept entries, one each, in the same order. */
  function Items(folder: string, entries: seq<string>, kind: string, fs: FileSystem): seq<Item>
  {
    Seqs.Map(Builder(folder, kind, fs), entries)
  }

  /** What `scan_folder(folder, kind)` returns: nothing for a folder that is not a directory,
      otherwise one item per kept entry, in enumeration order. */
  function Scan(folder: string, kind: string, fs: FileSystem): seq<Item>
  {
    if folder !in fs.dirs then []
    else Items(folder, Candidates(folder, fs.dirs[folder], fs), kind, fs)
  }

  /** `scan_folder` (launcher.py:81-99) as the source runs it: a loop over the listing that
      skips non-files and unrecognised extensions and appends one item per remaining entry. */
  method ScanFolder(folder: string, kind: string, fs: FileSystem) returns (items: seq<Item>)
    ensures items == Scan(folder, kind, fs)
  {
    items := [];
    if folder !in fs.dirs {
      return;
    }
    var entries := fs.dirs[folder];
    for i := 0 to |entries|
      invariant items == Items(folder, Candidates(folder, entries[..i], fs), kind, fs)
    {
      var entry := entries[i];
      assert entries[..i + 1] == entries[..i] + [entry];
      ScanEntriesSnoc(folder, entries[..i], entry, kind, fs);
      var fullPath := Paths.JoinPath(folder, entry);
      if fullPath !in fs.files {
        continue;
      }
      var lower := Text.Lower(entry);
      if !(Text.EndsWith(lower, ".lnk") || Text.EndsWith(lower, ".url") || Text.EndsWith(lower, ".exe")) {
        continue;
      }
      var name := Paths.Stem(entry);
      var target := ResolveShortcutTarget(fullPath, fs);
      items := items + [Item(name, fullPath, kind, target)];
    }
    assert entries[..|entries|] == entries;
  }

  /** A folder that is not a directory yields no item. */
  lemma ScanNotDirectory(folder: string, kind: string, fs: FileSystem)
    requires folder !in fs.dirs
    ensures Scan(folder, kind, fs) == []
  {
  }

  /** Every scanned item comes from a kept entry of the folder: a regular file with a
      launchable extension, named by its stem, at the joined path, with the requested kind
      and the resolved target. */
  lemma ScanSound(folder: string, kind: string, fs: FileSystem, x: Item)
    requires x in Scan(folder, kind, fs)
    ensures folder in fs.dirs
    ensures exists e :: e in fs.dirs[folder] && IsCandidate(folder, e, fs) && x == MakeItem(folder, e, kind, fs)
    ensures x.kind == kind
  {
    var entries := fs.dirs[folder];
    var c := Candidates(folder, entries, fs);
    var j :| 0 <= j < |c| && Scan(folder, kind, fs)[j] == x;
    assert c[j] in c;
    Seqs.FilterMembership(Launchable(folder, fs), entries, c[j]);
  }

  /** Items come one per kept entry, in the order the directory enumerates them: the kept
      entries form a subsequence of the listing, hold exactly its kept members, and the i-th
      item is built from the i-th of them. */
  lemma ScanOrder(folder: string, kind: string, fs: FileSystem)
    requires folder in fs.dirs
    ensures var entries := fs.dirs[folder];
      var c := Candidates(folder, entries, fs);
      && Seqs.IsSubsequence(c, entries)
      && (forall e :: e in c <==> e in entries && IsCandidate(folder, e, fs))
      && |Scan(folder, kind, fs)| == |c|
      && forall j :: 0 <= j < |c| ==> Scan(folder, kind, fs)[j] == MakeItem(folder, c[j], kind, fs)
  {
    var entries := fs.dirs[folder];
    Seqs.FilterIsSubsequence(Launchable(folder, fs), entries);
    forall e
      ensures e in Candidates(folder, entries, fs) <==> e in entries && IsCandidate(folder, e, fs)
    {
      Seqs.FilterMembership(Launchable(folder, fs), entries, e);
    }
  }

  /** An entry appended to a listing adds its item at the end and disturbs no earlier item. */
  lemma ScanEntriesSnoc(folder: string, entries: seq<string>, e: string, kind: string, fs: FileSystem)
    ensures Items(folder, Candidates(folder, entries + [e], fs), kind, fs)
         == Items(folder, Candidates(folder, entries, fs), kind, fs)
            + (if IsCandidate(folder, e, fs) then [MakeItem(folder, e, kind, fs)] else [])
  {
    var c := Candidates(folder, entries, fs);
    var tail := if IsCandidate(folder, e, fs) then [e] else [];
    assert Candidates(folder, entries + [e], fs) == c + tail by {
      Seqs.FilterSnoc(Launchable(folder, fs), entries, e);
    }
    Seqs.MapSnoc(Builder(folder, kind, fs), c, tail);
  }

  /** The catalog: the games folder's items followed by the launchers folder's. */
  function CatalogOf(config: Config, fs: FileSystem): seq<Item>
  {
    Scan(config.gamesDir, "game", fs) + Scan(config.launchersDir, "launcher", fs)
  }

  /** `scan_all` (launcher.py:102-105). */
  method ScanAll(config: Config, fs: FileSystem) returns (items: seq<Item>)
    ensures items == CatalogOf(config, fs)
  {
    var games := ScanFolder(config.gamesDir, "game", fs);
    var launchers := ScanFolder(config.launchersDir, "launcher", fs);
    items := games + launchers;
  }

  /** Every catalog item is a game or a launcher, and no game comes after a launcher. */
  lemma CatalogOrder(config: Config, fs: FileSystem)
    ensures var c := CatalogOf(config, fs);
      && (forall i :: 0 <= i < |c| ==> c[i].kind == "game" || c[i].kind == "launcher")
      && (forall i, j :: 0 <= i < j < |c| && c[i].kind == "launcher" ==> c[j].kind == "launcher")
  {
    var g := Scan(config.gamesDir, "game", fs);
    var l := Scan(config.launchersDir, "launcher", fs);
    ScanKind(config.gamesDir, "game", fs);
    ScanKind(config.launchersDir, "launcher", fs);
    assert "game"[0] != "launcher"[0];
    KindsInOrder(g, l, "game", "launcher");
  }

  /** Items all of kind `a` followed by items all of kind `b != a`: every item has one of the
      two kinds, and no `a` follows a `b`. */
  lemma KindsInOrder(g: seq<Item>, l: seq<Item>, a: string, b: string)
    requires a != b
    requires forall i :: 0 <= i < |g| ==> g[i].kind == a
    requires forall i :: 0 <= i < |l| ==> l[i].kind == b
    ensures var c := g + l;
      && (forall i :: 0 <= i < |c| ==> c[i].kind == a || c[i].kind == b)
      && (forall i, j :: 0 <= i < j < |c| && c[i].kind == b ==> c[j].kind == b)
  {
    var c := g + l;
    forall i | 0 <= i < |c|
      ensures c[i].kind == if i < |g| then a else b
    {
      if i < |g| {
        assert c[i] == g[i];
      } else {
        assert c[i] == l[i - |g|];
      }
    }
  }

  /** Every item of a scan carries the requested kind. */
  lemma ScanKind(folder: string, kind: string, fs: FileSystem)
    ensures forall i :: 0 <= i < |Scan(folder, kind, fs)| ==> Scan(folder, kind, fs)[i].kind == kind
  {
  }

  /** A name ending in a lower-case recognised extension is launchable. */
  lemma LowerExtension(entry: string, ext: string)
    requires Text.EndsWith(entry, ext)
    requires ext == ".lnk" || ext == ".url" || ext == ".exe"
    ensures Paths.HasLaunchableExtension(entry)
  {
    assert Text.NoUpper(ext);
    Text.LowerEndsWith(entry, ext);
  }

  /** A launchable seven-character name not starting with a dot has a three-character stem. */
  lemma ThreeLetterStem(entry: string)
    requires |entry| == 7 && Paths.HasLaunchableExtension(entry)
    requires entry[0] != '.' && Paths.NoSep(entry)
    ensures Paths.Stem(entry) == entry[..3]
  {
    Paths.StemOfLaunchable(entry);
    assert !Paths.AllDots(entry[..3]) by {
      assert entry[..3][0] == entry[0];
    }
  }

  /** A regular file whose name has a recognised extension after a three-letter stem. */
  lemma ThreeLetterEntry(folder: string, entry: string, ext: string, fs: FileSystem)
    requires |entry| == 7 && entry[3..] == ext
    requires ext == ".lnk" || ext == ".url" || ext == ".exe"
    requires entry[0] != '.' && Paths.NoSep(entry)
    requires Paths.JoinPath(folder, entry) in fs.files
    ensures IsCandidate(folder, entry, fs)
    ensures Paths.Stem(entry) == entry[..3]
  {
    LowerExtension(entry, ext);
    ThreeLetterStem(entry);
  }

  /** A three-entry listing whose middle entry is not kept scans to the items of the other two. */
  lemma ScanSkipsMiddle(folder: string, kind: string, fs: FileSystem, a: string, b: string, c: string)
    requires folder in fs.dirs && fs.dirs[folder] == [a, b, c]
    requires IsCandidate(folder, a, fs) && !IsCandidate(folder, b, fs) && IsCandidate(folder, c, fs)
    ensures Scan(folder, kind, fs) == [MakeItem(folder, a, kind, fs), MakeItem(folder, c, kind, fs)]
  {
    var entries := [a, b, c];
    var keep := Launchable(folder, fs);
    assert entries[1..][1..] == [c];
    assert Seqs.Filter(keep, [c]) == [c];
    assert Seqs.Filter(keep, entries[1..]) == [c];
    assert Candidates(folder, entries, fs) == [a, c];
  }

  /** A regular file `folder\\entry` whose seven-character name ends in ".lnk", ".url" or
      ".exe" after three non-dot characters is kept under its three-character stem. */
  lemma ExampleEntry(folder: string, entry: string, ext: string, fs: FileSystem)
    requires |folder| == 1 && folder[0] != '\\' && folder[0] != '/'
    requires |entry| == 7 && entry[3..] == ext && entry[0] != '.' && Paths.NoSep(entry)
    requires ext == ".lnk" || ext == ".url" || ext == ".exe"
    requires folder + "\\" + entry in fs.files
    ensures IsCandidate(folder, entry, fs) && Paths.Stem(entry) == entry[..3]
  {
    ThreeLetterEntry(folder, entry, ext, fs);
  }

  /** The listing of the example folder: two launchable files around a text file. */
  predicate ExampleFolder(fs: FileSystem, foo: string, bar: string, baz: string)
  {
    && foo == "Foo.lnk" && bar == "Bar.txt" && baz == "Baz.exe"
    && fs.dirs == map["G" := [foo, bar, baz]]
    && "G\\" + foo in fs.files && "G\\" + bar in fs.files && "G\\" + baz in fs.files
  }

  lemma ExampleKept(fs: FileSystem, foo: string, bar: string, baz: string)
    requires ExampleFolder(fs, foo, bar, baz)
    ensures IsCandidate("G", foo, fs) && Paths.Stem(foo) == "Foo"
    ensures IsCandidate("G", baz, fs) && Paths.Stem(baz) == "Baz"
  {
    assert "G" + "\\" == "G\\";
    assert Paths.NoSep(foo) && foo[3..] == ".lnk" && foo[..3] == "Foo";
    assert Paths.NoSep(baz) && baz[3..] == ".exe" && baz[..3] == "Baz";
    ExampleEntry("G", foo, ".lnk", fs);
    ExampleEntry("G", baz, ".exe", fs);
  }

  lemma ExampleSkipped(fs: FileSystem, bar: string)
    requires bar == "Bar.txt"
    ensures !IsCandidate("G", bar, fs)
  {
    assert Text.Lower(bar)[6] == 't';
  }

  /** A folder holding Foo.lnk, Bar.txt and Baz.exe scans to exactly two items, Foo and Baz. */
  lemma ScanExample(fs: FileSystem, foo: string, bar: string, baz: string)
    requires ExampleFolder(fs, foo, bar, baz)
    ensures |Scan("G", "game", fs)| == 2
    ensures Scan("G", "game", fs)[0].name == "Foo" && Scan("G", "game", fs)[1].name == "Baz"
  {
    ExampleKept(fs, foo, bar, baz);
    ExampleSkipped(fs, bar);
    ScanSkipsMiddle("G", "game", fs, foo, bar, baz);
  }
}
