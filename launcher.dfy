/** The application object `GameLauncherApp` (launcher.py:197-437) without its widgets: the
    catalog, the filter state, the layered icon cache of `_get_ctk_icon_for_item`
    (launcher.py:229-269) and the event handlers that rebuild the grid. */
module Launcher {
  import Text
  import Slug
  import Paths
  import opened Platform
  import opened Catalog
  import View

  /** A displayable image: one decoded from a PNG file, or a solid square of one colour. */
  datatype Image = FromFile(file: string) | Placeholder(color: string)

  const GameColor: string := "#22c55e"
  const LauncherColor: string := "#0ea5e9"

  /** The colour of the placeholder square: green for games, blue for everything else. */
  function PlaceholderColor(kind: string): (color: string)
    ensures color == GameColor <==> kind == "game"
    ensures color == GameColor || color == LauncherColor
  {
    if kind == "game" then GameColor else LauncherColor
  }

  /** The icon file of a cache key: `<cache-dir>/<key>.png`. */
  function CachePath(cacheDir: string, key: string): string
  {
    Paths.JoinPath(cacheDir, key + ".png")
  }

  /** Different keys have different icon files. */
  lemma CachePathInjective(cacheDir: string, a: string, b: string)
    requires CachePath(cacheDir, a) == CachePath(cacheDir, b)
    ensures a == b
  {
    Paths.JoinPathInjective(cacheDir, a + ".png", b + ".png");
    assert a == (a + ".png")[..|a|];
    assert b == (b + ".png")[..|b|];
  }

  /** Where a lookup found its image, in the order the tiers are tried. */
  datatype Tier = Memory | DiskFile | Extracted | Fallback

  /** The outcome of one icon lookup: the tier that answered, the image, and the in-memory
      cache and icon cache directory afterwards (each cache file with whether it decodes). */
  datatype Lookup = Lookup(tier: Tier, image: Image, memory: map<string, Image>, files: map<string, bool>)

  /** `_get_ctk_icon_for_item` as a function of the state it reads and writes. The memory
      cache is tried first, then a decodable `<slug>.png`, then extraction (which writes that
      file), and last the placeholder of the item's kind. */
  function IconLookup(memory: map<string, Image>, files: map<string, bool>, cacheDir: string,
                      fs: FileSystem, item: Item): (r: Lookup)
    ensures Slug.Slug(item.name) in r.memory && r.memory[Slug.Slug(item.name)] == r.image
    ensures r.memory.Keys == memory.Keys + {Slug.Slug(item.name)}
    ensures forall k :: k in memory ==> r.memory[k] == memory[k]
  {
    var key := Slug.Slug(item.name);
    var path := CachePath(cacheDir, key);
    if key in memory then Lookup(Memory, memory[key], memory, files)
    else if path in files && files[path] then
      Lookup(DiskFile, FromFile(path), memory[key := FromFile(path)], files)
    else
      var extracted := ExtractIconPng(item.path, path, fs);
      var files' := if extracted.Some? then files[path := fs.shellIcons[item.path]] else files;
      if extracted.Some? && files'[path] then
        Lookup(Extracted, FromFile(path), memory[key := FromFile(path)], files')
      else
        var placeholder := Placeholder(PlaceholderColor(item.kind));
        Lookup(Fallback, placeholder, memory[key := placeholder], files')
  }

  /** The invariant of the two cache tiers: every key is a slug (slugging it changes nothing);
      an image from a file is that key's icon file, present and decodable; a placeholder has
      one of the two kind colours. */
  predicate Coherent(memory: map<string, Image>, files: map<string, bool>, cacheDir: string)
  {
    forall k :: k in memory ==>
      && Slug.Slug(k) == k
      && (memory[k].FromFile? ==>
            memory[k].file == CachePath(cacheDir, k) && CachePath(cacheDir, k) in files
            && files[CachePath(cacheDir, k)])
      && (memory[k].Placeholder? ==> memory[k].color == GameColor || memory[k].color == LauncherColor)
  }

  /** Every lookup keeps the caches coherent. */
  lemma LookupCoherent(memory: map<string, Image>, files: map<string, bool>, cacheDir: string,
                       fs: FileSystem, item: Item)
    requires Coherent(memory, files, cacheDir)
    ensures var r := IconLookup(memory, files, cacheDir, fs, item);
      Coherent(r.memory, r.files, cacheDir)
  {
    var r := IconLookup(memory, files, cacheDir, fs, item);
    var key := Slug.Slug(item.name);
    var path := CachePath(cacheDir, key);
    Slug.SlugIdempotent(item.name);
    forall k | k in r.memory
      ensures Slug.Slug(k) == k
      ensures r.memory[k].FromFile? ==>
        r.memory[k].file == CachePath(cacheDir, k) && CachePath(cacheDir, k) in r.files
        && r.files[CachePath(cacheDir, k)]
      ensures r.memory[k].Placeholder? ==>
        r.memory[k].color == GameColor || r.memory[k].color == LauncherColor
    {
      if k != key {
        assert k in memory;
        if CachePath(cacheDir, k) == path {
          CachePathInjective(cacheDir, k, key);
        }
      }
    }
  }

  /** A memory hit answers the cached image and changes nothing. */
  lemma MemoryHit(memory: map<string, Image>, files: map<string, bool>, cacheDir: string,
                  fs: FileSystem, item: Item)
    requires Slug.Slug(item.name) in memory
    ensures IconLookup(memory, files, cacheDir, fs, item)
         == Lookup(Memory, memory[Slug.Slug(item.name)], memory, files)
  {
  }

  /** On a memory miss, a decodable icon file is used as it is: the extractor is not asked and
      the icon cache directory is left alone. */
  lemma DiskBeforeExtraction(memory: map<string, Image>, files: map<string, bool>, cacheDir: string,
                             fs: FileSystem, item: Item)
    requires Slug.Slug(item.name) !in memory
    requires var p := CachePath(cacheDir, Slug.Slug(item.name)); p in files && files[p]
    ensures var r := IconLookup(memory, files, cacheDir, fs, item);
      && r.tier == DiskFile
      && r.image == FromFile(CachePath(cacheDir, Slug.Slug(item.name)))
      && r.files == files
  {
  }

  /** The icon cache directory changes only when both caches missed, and then only at the
      item's icon file. */
  lemma FilesChangeOnlyOnMiss(memory: map<string, Image>, files: map<string, bool>, cacheDir: string,
                              fs: FileSystem, item: Item)
    ensures var r := IconLookup(memory, files, cacheDir, fs, item);
      var p := CachePath(cacheDir, Slug.Slug(item.name));
      && (r.tier == Memory || r.tier == DiskFile ==> r.files == files)
      && (forall q :: q != p ==> (q in r.files <==> q in files) && (q in files ==> r.files[q] == files[q]))
      && KeepsDecodable(files, r.files)
  {
  }

  /** When extraction answers, the item's file exists, the icon file was written and decodes,
      and the image is that file. */
  lemma ExtractedIcon(memory: map<string, Image>, files: map<string, bool>, cacheDir: string,
                      fs: FileSystem, item: Item)
    requires IconLookup(memory, files, cacheDir, fs, item).tier == Extracted
    ensures var r := IconLookup(memory, files, cacheDir, fs, item);
      var p := CachePath(cacheDir, Slug.Slug(item.name));
      && item.path in fs.existing
      && p in r.files && r.files[p]
      && r.image == FromFile(p)
  {
  }

  /** The placeholder has the colour of the item's kind and is kept in memory only: no icon
      file becomes decodable through it. */
  lemma PlaceholderInMemoryOnly(memory: map<string, Image>, files: map<string, bool>, cacheDir: string,
                                fs: FileSystem, item: Item)
    requires IconLookup(memory, files, cacheDir, fs, item).tier == Fallback
    ensures var r := IconLookup(memory, files, cacheDir, fs, item);
      && r.image == Placeholder(PlaceholderColor(item.kind))
      && forall q :: q in r.files && r.files[q] ==> q in files && files[q]
  {
  }

  /** On a miss in both caches, extraction is tried before the placeholder: when the item's
      file exists and the shell gives an icon whose PNG decodes, that icon is used. */
  lemma ExtractionBeforePlaceholder(memory: map<string, Image>, files: map<string, bool>, cacheDir: string,
                                    fs: FileSystem, item: Item)
    requires Slug.Slug(item.name) !in memory
    requires var p := CachePath(cacheDir, Slug.Slug(item.name)); !(p in files && files[p])
    requires item.path in fs.existing && item.path in fs.shellIcons && fs.shellIcons[item.path]
    ensures var r := IconLookup(memory, files, cacheDir, fs, item);
      var p := CachePath(cacheDir, Slug.Slug(item.name));
      && r.tier == Extracted
      && r.image == FromFile(p)
      && r.files == files[p := true]
  {
  }

  /** The placeholder is the last resort: it is used only when the memory cache misses, no
      decodable icon file is present, and extraction yields no PNG that decodes. */
  lemma FallbackOnlyWhenAllFail(memory: map<string, Image>, files: map<string, bool>, cacheDir: string,
                                fs: FileSystem, item: Item)
    requires IconLookup(memory, files, cacheDir, fs, item).tier == Fallback
    ensures Slug.Slug(item.name) !in memory
    ensures var p := CachePath(cacheDir, Slug.Slug(item.name)); !(p in files && files[p])
    ensures !(item.path in fs.existing && item.path in fs.shellIcons && fs.shellIcons[item.path])
  {
  }

  /** The converse: when all three earlier tiers fail, the placeholder of the item's kind is
      returned. A PNG that was written but does not decode is recorded as such. */
  lemma PlaceholderWhenAllFail(memory: map<string, Image>, files: map<string, bool>, cacheDir: string,
                               fs: FileSystem, item: Item)
    requires Slug.Slug(item.name) !in memory
    requires var p := CachePath(cacheDir, Slug.Slug(item.name)); !(p in files && files[p])
    requires !(item.path in fs.existing && item.path in fs.shellIcons && fs.shellIcons[item.path])
    ensures var r := IconLookup(memory, files, cacheDir, fs, item);
      var p := CachePath(cacheDir, Slug.Slug(item.name));
      && r.tier == Fallback
      && r.image == Placeholder(PlaceholderColor(item.kind))
      && r.files == (if item.path in fs.existing && item.path in fs.shellIcons then files[p := false] else files)
  {
  }

  /** Items whose names share a slug share one cache entry: after looking one up, looking up
      the other is a memory hit that answers the same image and changes nothing. In
      particular, looking the same item up twice gives the same image. */
  lemma SharedSlug(memory: map<string, Image>, files: map<string, bool>, cacheDir: string,
                   fs: FileSystem, a: Item, b: Item)
    requires Slug.Slug(a.name) == Slug.Slug(b.name)
    ensures var ra := IconLookup(memory, files, cacheDir, fs, a);
      var rb := IconLookup(ra.memory, ra.files, cacheDir, fs, b);
      rb.tier == Memory && rb.image == ra.image && rb.memory == ra.memory && rb.files == ra.files
  {
  }

  /** One card of the grid: the item, its cell and its icon. */
  datatype Card = Card(item: Item, row: nat, col: nat, icon: Image)

  /** `cards` lay out `items` in order, three per row, each with the icon cached for its slug. */
  predicate Shows(cards: seq<Card>, items: seq<Item>, memory: map<string, Image>)
  {
    && |cards| == |items|
    && forall i :: 0 <= i < |cards| ==>
      && cards[i].item == items[i]
      && (cards[i].row, cards[i].col) == View.GridCell(i)
      && Slug.Slug(items[i].name) in memory
      && cards[i].icon == memory[Slug.Slug(items[i].name)]
  }

  /** `m'` keeps every entry of `m` unchanged. */
  predicate Extends(m: map<string, Image>, m': map<string, Image>)
  {
    forall k :: k in m ==> k in m' && m'[k] == m[k]
  }

  /** The cache keys of a sequence of items. */
  function SlugsOf(items: seq<Item>): set<string>
  {
    if items == [] then {} else SlugsOf(items[..|items| - 1]) + {Slug.Slug(items[|items| - 1].name)}
  }

  /** The caches after looking up the icons of `items` one after another, starting from
      `memory` and `files`: what drawing those items leaves behind. */
  function LookupAll(memory: map<string, Image>, files: map<string, bool>, cacheDir: string,
                     fs: FileSystem, items: seq<Item>): (map<string, Image>, map<string, bool>)
  {
    if items == [] then (memory, files)
    else
      var before := LookupAll(memory, files, cacheDir, fs, items[..|items| - 1]);
      var r := IconLookup(before.0, before.1, cacheDir, fs, items[|items| - 1]);
      (r.memory, r.files)
  }

  /** Looking up one more item of a prefix is one more `IconLookup`. */
  lemma LookupAllSnoc(memory: map<string, Image>, files: map<string, bool>, cacheDir: string,
                      fs: FileSystem, items: seq<Item>, n: nat)
    requires n < |items|
    ensures var before := LookupAll(memory, files, cacheDir, fs, items[..n]);
      var r := IconLookup(before.0, before.1, cacheDir, fs, items[n]);
      LookupAll(memory, files, cacheDir, fs, items[..n + 1]) == (r.memory, r.files)
  {
    assert items[..n + 1][..n] == items[..n];
  }

  /** Looking up a sequence of items keeps every cache entry, adds exactly their slugs, keeps
      decodable icon files decodable and keeps the caches coherent. */
  lemma {:induction false} LookupAllCaches(memory: map<string, Image>, files: map<string, bool>,
                                           cacheDir: string, fs: FileSystem, items: seq<Item>)
    requires Coherent(memory, files, cacheDir)
    ensures var after := LookupAll(memory, files, cacheDir, fs, items);
      && after.0.Keys == memory.Keys + SlugsOf(items)
      && Extends(memory, after.0)
      && KeepsDecodable(files, after.1)
      && Coherent(after.0, after.1, cacheDir)
  {
    if items != [] {
      var init := items[..|items| - 1];
      var last := items[|items| - 1];
      LookupAllCaches(memory, files, cacheDir, fs, init);
      var before := LookupAll(memory, files, cacheDir, fs, init);
      LookupCoherent(before.0, before.1, cacheDir, fs, last);
      FilesChangeOnlyOnMiss(before.0, before.1, cacheDir, fs, last);
      var r := IconLookup(before.0, before.1, cacheDir, fs, last);
      ExtendsTrans(memory, before.0, r.memory);
      KeepsDecodableTrans(files, before.1, r.files);
    }
  }

  /** One more card drawn, for the grid: the cards drawn so far followed by the card of item
      `n` show the first `n + 1` items. */
  lemma DrawStepCard(items: seq<Item>, n: nat, cards: seq<Card>, card: Card,
                     m1: map<string, Image>, m2: map<string, Image>)
    requires n < |items| && card.item == items[n] && (card.row, card.col) == View.GridCell(n)
    requires Shows(cards, items[..n], m1) && Extends(m1, m2)
    requires Slug.Slug(items[n].name) in m2 && card.icon == m2[Slug.Slug(items[n].name)]
    ensures Shows(cards + [card], items[..n + 1], m2)
  {
    assert items[..n + 1] == items[..n] + [card.item];
    ShowsSnoc(cards, items[..n], card, m1, m2);
  }

  lemma ExtendsTrans(m0: map<string, Image>, m1: map<string, Image>, m2: map<string, Image>)
    requires Extends(m0, m1) && Extends(m1, m2)
    ensures Extends(m0, m2)
  {
  }

  lemma KeepsDecodableTrans(f0: map<string, bool>, f1: map<string, bool>, f2: map<string, bool>)
    requires KeepsDecodable(f0, f1) && KeepsDecodable(f1, f2)
    ensures KeepsDecodable(f0, f2)
  {
  }

  /** Appending a card for the next item keeps `Shows`, over a cache that only grew. */
  lemma ShowsSnoc(cards: seq<Card>, items: seq<Item>, card: Card,
                  memory: map<string, Image>, memory': map<string, Image>)
    requires Shows(cards, items, memory) && Extends(memory, memory')
    requires (card.row, card.col) == View.GridCell(|items|)
    requires Slug.Slug(card.item.name) in memory' && card.icon == memory'[Slug.Slug(card.item.name)]
    ensures Shows(cards + [card], items + [card.item], memory')
  {
  }

  /** Icon files that decode keep decoding: `files'` only adds to them. */
  predicate KeepsDecodable(files: map<string, bool>, files': map<string, bool>)
  {
    forall q :: q in files && files[q] ==> q in files' && files'[q]
  }

  /** The text `on_search_change` stores is trimmed and lower-cased: it neither starts nor
      ends with whitespace and holds no upper-case letter. */
  lemma SearchTextNormalized(entry: string)
    ensures var t := Text.Lower(Text.Strip(entry));
      && Text.NoUpper(t)
      && (t == [] || (!Text.IsSpace(t[0]) && !Text.IsSpace(t[|t| - 1])))
  {
    Text.LowerIdempotent(Text.Strip(entry));
  }

  class LauncherApp {
    const config: Config
    var allItems: seq<Item>
    var filterKind: string
    var searchText: string
    var imageCache: map<string, Image>
    /** The icon cache directory: each `<slug>.png` present, with whether it decodes. */
    var iconFiles: map<string, bool>
    /** The paths handed to the icon extractor so far, in order. */
    ghost var extractions: seq<string>

    ghost predicate Valid()
      reads this
    {
      Coherent(imageCache, iconFiles, config.cacheDir)
    }

    /** `__init__` (launcher.py:199-225): scan both folders, show everything, start with an
        empty memory cache over the icon files left by earlier sessions, and draw the grid. */
    constructor (config: Config, fs: FileSystem, iconFiles: map<string, bool>)
      ensures Valid()
      ensures this.config == config && allItems == CatalogOf(config, fs)
      ensures filterKind == "all" && searchText == ""
      ensures imageCache.Keys == SlugsOf(allItems)
      ensures KeepsDecodable(iconFiles, this.iconFiles)
      ensures (imageCache, this.iconFiles) == LookupAll(map[], iconFiles, config.cacheDir, fs, allItems)
    {
      var items := ScanAll(config, fs);
      this.config := config;
      allItems := items;
      filterKind := "all";
      searchText := "";
      imageCache := map[];
      this.iconFiles := iconFiles;
      extractions := [];
      new;
      var cards := RefreshList(fs);
      View.FilteredWithoutSearch(allItems, "all");
    }

    /** `_get_ctk_icon_for_item`: the icon of an item through the four tiers, updating the
        memory cache and, when the extractor runs, the icon cache directory. */
    method GetIconForItem(item: Item, fs: FileSystem) returns (image: Image)
      requires Valid()
      modifies this`imageCache, this`iconFiles, this`extractions
      ensures Valid()
      ensures var r := IconLookup(old(imageCache), old(iconFiles), config.cacheDir, fs, item);
        && image == r.image && imageCache == r.memory && iconFiles == r.files
        && extractions == old(extractions) + (if r.tier == Memory || r.tier == DiskFile then [] else [item.path])
      ensures Slug.Slug(item.name) in imageCache && imageCache[Slug.Slug(item.name)] == image
      ensures imageCache.Keys == old(imageCache).Keys + {Slug.Slug(item.name)}
      ensures Extends(old(imageCache), imageCache)
      ensures KeepsDecodable(old(iconFiles), iconFiles)
    {
      ghost var r := IconLookup(imageCache, iconFiles, config.cacheDir, fs, item);
      LookupCoherent(imageCache, iconFiles, config.cacheDir, fs, item);
      FilesChangeOnlyOnMiss(imageCache, iconFiles, config.cacheDir, fs, item);
      var key := Slug.Slugify(item.name);
      var cachePath := Paths.JoinPath(config.cacheDir, key + ".png");
      assert cachePath == CachePath(config.cacheDir, key);
      if key in imageCache {
        image := imageCache[key];
        assert r == Lookup(Memory, image, imageCache, iconFiles);
        return;
      }
      if cachePath in iconFiles {
        if iconFiles[cachePath] {
          image := FromFile(cachePath);
          assert r == Lookup(DiskFile, image, imageCache[key := image], iconFiles);
          imageCache := imageCache[key := image];
          return;
        }
        // the file does not decode: go on to extraction
      }
      ghost var files0 := iconFiles;
      extractions := extractions + [item.path];
      var extracted := ExtractIconPng(item.path, cachePath, fs);
      if extracted.Some? {
        iconFiles := iconFiles[extracted.value := fs.shellIcons[item.path]];
        if extracted.value in iconFiles && iconFiles[extracted.value] {
          image := FromFile(extracted.value);
          assert r == Lookup(Extracted, image, imageCache[key := image], iconFiles);
          imageCache := imageCache[key := image];
          return;
        }
      }
      var color := if item.kind == "game" then GameColor else LauncherColor;
      image := Placeholder(color);
      assert r == Lookup(Fallback, image, imageCache[key := image], iconFiles);
      imageCache := imageCache[key := image];
    }

    /** `refresh_list` (launcher.py:370-437) without the widgets: one card per shown item, in
        order, three per row, each with its icon; no card when nothing is shown. */
    method RefreshList(fs: FileSystem) returns (cards: seq<Card>)
      requires Valid()
      modifies this`imageCache, this`iconFiles, this`extractions
      ensures Valid()
      ensures Shows(cards, View.FilteredItems(allItems, filterKind, searchText), imageCache)
      ensures Extends(old(imageCache), imageCache)
      ensures imageCache.Keys == old(imageCache).Keys + SlugsOf(View.FilteredItems(allItems, filterKind, searchText))
      ensures KeepsDecodable(old(iconFiles), iconFiles)
      ensures (imageCache, iconFiles)
           == LookupAll(old(imageCache), old(iconFiles), config.cacheDir, fs,
                        View.FilteredItems(allItems, filterKind, searchText))
    {
      var items := View.FilteredItems(allItems, filterKind, searchText);
      LookupAllCaches(imageCache, iconFiles, config.cacheDir, fs, items);
      cards := [];
      if items == [] {
        return;
      }
      var maxCols := 3;
      for index := 0 to |items|
        invariant Valid()
        invariant Shows(cards, items[..index], imageCache)
        invariant (imageCache, iconFiles)
               == LookupAll(old(imageCache), old(iconFiles), config.cacheDir, fs, items[..index])
      {
        var row := index / maxCols;
        var col := index % maxCols;
        ghost var cacheBefore := imageCache;
        LookupAllSnoc(old(imageCache), old(iconFiles), config.cacheDir, fs, items, index);
        var icon := GetIconForItem(items[index], fs);
        var card := Card(items[index], row, col, icon);
        DrawStepCard(items, index, cards, card, cacheBefore, imageCache);
        cards := cards + [card];
      }
      assert items[..|items|] == items;
    }

    /** `set_filter` (launcher.py:341-343): choose the kind filter and redraw. */
    method SetFilter(kind: string, fs: FileSystem) returns (cards: seq<Card>)
      requires Valid()
      modifies this`filterKind, this`imageCache, this`iconFiles, this`extractions
      ensures Valid()
      ensures filterKind == kind
      ensures Shows(cards, View.FilteredItems(allItems, kind, searchText), imageCache)
      ensures Extends(old(imageCache), imageCache)
      ensures imageCache.Keys == old(imageCache).Keys + SlugsOf(View.FilteredItems(allItems, kind, searchText))
      ensures KeepsDecodable(old(iconFiles), iconFiles)
      ensures (imageCache, iconFiles)
           == LookupAll(old(imageCache), old(iconFiles), config.cacheDir, fs,
                        View.FilteredItems(allItems, kind, searchText))
    {
      filterKind := kind;
      cards := RefreshList(fs);
    }

    /** `on_search_change` (launcher.py:345-347): store the entry's text trimmed and
        lower-cased, and redraw. */
    method OnSearchChange(entryText: string, fs: FileSystem) returns (cards: seq<Card>)
      requires Valid()
      modifies this`searchText, this`imageCache, this`iconFiles, this`extractions
      ensures Valid()
      ensures searchText == Text.Lower(Text.Strip(entryText))
      ensures Shows(cards, View.FilteredItems(allItems, filterKind, searchText), imageCache)
      ensures Extends(old(imageCache), imageCache)
      ensures imageCache.Keys == old(imageCache).Keys + SlugsOf(View.FilteredItems(allItems, filterKind, searchText))
      ensures KeepsDecodable(old(iconFiles), iconFiles)
      ensures (imageCache, iconFiles)
           == LookupAll(old(imageCache), old(iconFiles), config.cacheDir, fs,
                        View.FilteredItems(allItems, filterKind, searchText))
    {
      searchText := Text.Lower(Text.Strip(entryText));
      cards := RefreshList(fs);
    }

    /** `rescan_items` (launcher.py:349-351): rebuild the catalog wholesale from the folders as
        they are now, and redraw. The caches survive the rescan. */
    method RescanItems(fs: FileSystem) returns (cards: seq<Card>)
      requires Valid()
      modifies this`allItems, this`imageCache, this`iconFiles, this`extractions
      ensures Valid()
      ensures allItems == CatalogOf(config, fs)
      ensures Shows(cards, View.FilteredItems(allItems, filterKind, searchText), imageCache)
      ensures Extends(old(imageCache), imageCache)
      ensures imageCache.Keys == old(imageCache).Keys + SlugsOf(View.FilteredItems(allItems, filterKind, searchText))
      ensures KeepsDecodable(old(iconFiles), iconFiles)
      ensures (imageCache, iconFiles)
           == LookupAll(old(imageCache), old(iconFiles), config.cacheDir, fs,
                        View.FilteredItems(allItems, filterKind, searchText))
    {
      allItems := ScanAll(config, fs);
      cards := RefreshList(fs);
    }
  }
}
