# Game launcher core, in Dafny

The launcher (`launcher.py`) shows a grid of the games and game launchers found in two
configured Windows folders. Each card shows an icon, a name, a kind and a launch button.
This project models its core:

- **Item discovery.** `scan_folder` and `scan_all` list a folder. They keep the regular files
  ending in `.lnk`, `.url` or `.exe` (in any letter case), name each item after the file
  without its extension, and tag it `"game"` or `"launcher"`. Shortcuts are resolved with
  `resolve_shortcut_target`.
- **Cache keys.** `slugify` turns a display name into a cache key: it lower-cases the name,
  turns the characters `\ / : * ? " < > |` into spaces, and joins the whitespace-separated
  words with underscores.
- **The view.** `get_filtered_items` applies a kind filter and then a search filter. The
  search tests the lower-cased name or path. `refresh_list` places the cards row by row,
  three per row.
- **The icon cache.** `_get_ctk_icon_for_item` tries four tiers in order:
  1. a memory map from slug to image;
  2. a decodable `<slug>.png` in the icon cache directory;
  3. extraction of the shell icon, which writes that file;
  4. a placeholder square, green (`#22c55e`) for games and blue (`#0ea5e9`) otherwise.
- **The event handlers.** `set_filter`, `on_search_change` and `rescan_items` update the
  application state and redraw the grid.

Layout:

| module | file | what it holds |
|---|---|---|
| `Wrappers` | `wrappers.dfy` | the `Option` type |
| `Seqs` | `seqs.dfy` | order-preserving filtering, subsequences and concatenation |
| `Text` | `text.dfy` | Python's `lower`, `strip`, `split`, `join`, `endswith` and the `in` test on strings |
| `Slug` | `slug.dfy` | `slugify` |
| `Paths` | `paths.dfy` | Windows `os.path.join`, `os.path.splitext` and the recognised extensions |
| `Platform` | `platform.dfy` | the file system, shortcut resolution and the icon extractor |
| `Catalog` | `catalog.dfy` | `Item`, `scan_folder` and `scan_all` |
| `View` | `view.dfy` | `get_filtered_items` and the grid cell of a card |
| `Launcher` | `launcher.dfy` | the icon cache and the `LauncherApp` class with its handlers |

The machine is a value of type `Platform.FileSystem`. It holds:

- the directory listings;
- the regular files;
- the existing paths;
- the shortcut targets;
- the files whose shell icon can be extracted, each with whether the written PNG decodes.

The three folders (`GAMES_DIR`, `LAUNCHERS_DIR`, `ICON_CACHE_DIR`) are a `Catalog.Config`
value given to the application.

The icon cache directory is a field of the application, `iconFiles`. It maps each present
file to whether it decodes. Only the application writes that directory.

Image decoding by the imaging library is an oracle: the `bool` stored with each file.

Python's string semantics are written out where the model depends on them:

- `str.lower` for ASCII and Latin-1 capital letters;
- the whitespace set of `str.split()` and `str.strip()`;
- Windows `os.path.join` for a plain file name;
- `os.path.splitext`, including the rule that leading dots of a file name do not start an
  extension.

The source writes the illegal characters of `slugify` as the raw literal `r"\/:*?\"<>|"`.
In a raw string the escaped quote keeps its backslash, so the backslash is replaced twice.
`Slug.Illegal` has all ten characters, in the order the loop visits them.

The icon handle obtained during extraction is released only after a successful save
(launcher.py:185-186). When the conversion or the save fails, the handle is not released. The model
does not represent handles, so this difference has no counterpart in it.

## Model

| member | source | states |
|---|---|---|
| `Slug.Slugify` | launcher.py:45-49 | The loop that lower-cases the name and replaces each illegal character by a space, then splits and joins with `_`, computes `Slug(name)`. |
| `Slug.WordsShape` | launcher.py:45-49 | Every word of a name is non-empty and holds only kept, non-upper-case characters. Laid end to end, the words are the name's kept characters, lower-cased. |
| `Slug.SlugChars` | launcher.py:45-49 | A slug contains no whitespace, no illegal character and no upper-case letter. Every character of it is an underscore or a lower-cased kept character of the name. |
| `Slug.SlugIdempotent` | launcher.py:45-49 | Slugging a slug gives it back unchanged. |
| `Slug.SlugEmpty` | launcher.py:45-49 | The slug is empty exactly when every character of the name is whitespace or illegal. |
| `Slug.SlugLength` | launcher.py:45-49 | Words are joined by exactly one underscore: the slug's length is the number of kept characters plus the number of gaps between words. |
| `Text.SplitConcat` | launcher.py:49 | Python's `split()` drops exactly the whitespace: its tokens laid end to end are the string's non-space characters, in order. |
| `Text.SplitJoin` | launcher.py:49 | Joining non-empty, space-free tokens with a space and splitting again gives the tokens back. |
| `Text.ContainsAt` | launcher.py:364-367 | Python's substring test holds exactly when the text occurs at some position of the string. |
| `Text.LowerIdempotent` | launcher.py:346 | Lower-casing twice equals lower-casing once. |
| `Paths.JoinPathEnds` | launcher.py:87 | `os.path.join(folder, entry)` starts with the folder and ends with the entry's name. |
| `Paths.JoinPathInjective` | launcher.py:87 | Within one folder, different entries give different paths. |
| `Paths.StemOfLaunchable` | launcher.py:95 | A launchable entry's name loses exactly its four-character extension, unless only dots precede it. |
| `Platform.ResolveShortcutTarget` | launcher.py:55-75 | A resolved target is the path itself or an existing, non-empty path. |
| `Platform.ResolveDirect` | launcher.py:71-72 | A path ending in `.exe` or `.url`, in any letter case, resolves to itself. |
| `Platform.ResolveLink` | launcher.py:64-70 | A `.lnk` path resolves exactly when its stored target is non-empty and exists, and then to that target. An unreadable shortcut resolves to nothing. |
| `Platform.ResolveOther` | launcher.py:55-75 | Any other extension resolves to nothing. |
| `Catalog.ScanFolder` | launcher.py:81-99 | The scanning loop returns `Scan(folder, kind)`: nothing for a non-directory, else one item per kept entry, in listing order. |
| `Catalog.ScanNotDirectory` | launcher.py:83-84 | A folder that is not a directory scans to the empty list. |
| `Catalog.ScanSound` | launcher.py:86-97 | Every scanned item comes from a regular file of the folder with a launchable extension. It is named by the file's stem, carries the joined path, the requested kind and the resolved target. |
| `Catalog.ScanOrder` | launcher.py:86-99 | The kept entries are a subsequence of the listing and hold exactly its qualifying entries. Item i is built from kept entry i. |
| `Catalog.ScanKind` | launcher.py:97 | Every item of a scan carries the kind the folder was scanned with. |
| `Catalog.ScanEntriesSnoc` | launcher.py:86-97 | One more listing entry appends at most its own item and leaves the earlier items unchanged. |
| `Catalog.ScanExample` | launcher.py:86-97 | A folder listing `Foo.lnk`, `Bar.txt` and `Baz.exe` scans to exactly the items `Foo` and `Baz`. |
| `Catalog.ScanAll` | launcher.py:102-105 | The catalog is the games folder's scan followed by the launchers folder's scan. |
| `Catalog.CatalogOrder` | launcher.py:102-105 | Every catalog item is a game or a launcher, and no game comes after a launcher. |
| `View.FilteredIsSubsequence` | launcher.py:355-368 | The view is a subsequence of the catalog, so it keeps the catalog's order. |
| `View.FilteredMembership` | launcher.py:355-368 | An item is shown exactly when all three hold: it is in the catalog; it has the chosen kind, if the filter is "game" or "launcher"; and the search text occurs in its lower-cased name or path, if the text is non-empty. |
| `View.FilteredWithoutSearch` | launcher.py:358-359 | With no search text the view is the kind-filtered catalog. With any other filter value than "game" or "launcher" it is the whole catalog. |
| `View.GamesOnly` | launcher.py:358-359 | With the "game" filter and no search text, the view is exactly the catalog's games, in order. |
| `View.GridCell` | launcher.py:386-389 | The card at `index` sits in a column below 3, and row times 3 plus column gives `index` back. |
| `Launcher.PlaceholderColor` | launcher.py:264 | The placeholder is `#22c55e` exactly for kind "game" and `#0ea5e9` otherwise. |
| `Launcher.CachePathInjective` | launcher.py:236-237 | Different slugs get different icon files. |
| `Launcher.IconLookup` | launcher.py:229-269 | A lookup stores its image under the item's slug. It adds only that key to the memory cache and changes no existing entry. |
| `Launcher.LookupCoherent` | launcher.py:229-269 | Every lookup preserves three facts about the cache. Each memory key is a slug. An image from a file is that key's icon file, present and decodable. A placeholder has one of the two kind colours. |
| `Launcher.MemoryHit` | launcher.py:239-241 | On a memory hit the cached image is returned and neither cache changes. |
| `Launcher.DiskBeforeExtraction` | launcher.py:243-251 | On a memory miss, a decodable `<slug>.png` is used without calling the extractor, and the directory is left alone. |
| `Launcher.FilesChangeOnlyOnMiss` | launcher.py:239-262 | The icon cache directory changes only when both caches miss, and then only at the item's icon file. A file that decodes keeps decoding. |
| `Launcher.ExtractedIcon` | launcher.py:253-260 | An icon from extraction comes from an existing file. Its PNG was written to `<slug>.png` and decodes, and the image is that file. |
| `Launcher.PlaceholderInMemoryOnly` | launcher.py:263-269 | The fallback is the placeholder of the item's kind. It is kept in memory only: no icon file becomes decodable through it. |
| `Launcher.ExtractionBeforePlaceholder` | launcher.py:253-262 | When both caches miss and the item's file exists with a shell icon whose PNG decodes, extraction answers, not the placeholder: the image is `<slug>.png`, which is now present and decodes. |
| `Launcher.FallbackOnlyWhenAllFail` | launcher.py:239-269 | The placeholder is used only when all three earlier tiers fail: the slug is not in memory, no decodable `<slug>.png` is present, and the file has no extractable icon whose PNG decodes. |
| `Launcher.PlaceholderWhenAllFail` | launcher.py:253-269 | When all three earlier tiers fail, the placeholder of the item's kind is returned. If a PNG was written but does not decode, the directory records that file as not decodable; otherwise the directory is unchanged. |
| `Launcher.SharedSlug` | launcher.py:235-241 | Two items whose names have the same slug share one cache entry: the second lookup is a memory hit, returns the same image and changes nothing. |
| `Launcher.LookupAllCaches` | launcher.py:387-400 | Looking up the icons of a sequence of cards, one after another, keeps every memory entry and adds exactly the cards' slugs. Icon files that decoded still decode, and the cache invariant holds throughout. |
| `Launcher.SearchTextNormalized` | launcher.py:345-347 | The stored search text neither starts nor ends with whitespace and contains no upper-case letter. |
| `Launcher.LauncherApp.constructor` | launcher.py:199-225 | The application starts with the scanned catalog, filter "all" and empty search text. After the first draw, both caches are what the icon lookups of the whole catalog, in order, leave behind when started from an empty memory cache. The memory cache then holds exactly the catalog's slugs, and icon files that decoded still decode. |
| `Launcher.LauncherApp.GetIconForItem` | launcher.py:229-269 | The method returns the image of `IconLookup` and leaves both caches in its state. The extractor is called only on a miss in both caches. The cache invariant is preserved. |
| `Launcher.LauncherApp.RefreshList` | launcher.py:370-437 | One card per shown item, in view order. Each card sits in its grid cell and has the icon cached for its slug. No card is drawn when nothing is shown. Both caches afterwards are `LookupAll` of the shown items: one four-tier lookup per card, in order. Existing cache entries are kept, and exactly the shown items' slugs are added. |
| `Launcher.LauncherApp.SetFilter` | launcher.py:341-343 | The method stores the kind filter, then redraws the view for that filter. Both caches afterwards are what one lookup per newly shown item, in order, leaves behind. Existing memory-cache entries are kept, and exactly the shown items' slugs are added. Icon files that decoded still decode. |
| `Launcher.LauncherApp.OnSearchChange` | launcher.py:345-347 | The method stores the entry text stripped and lower-cased, then redraws. Both caches afterwards are what one lookup per newly shown item, in order, leaves behind. Existing memory-cache entries are kept, and exactly the shown items' slugs are added. Icon files that decoded still decode. |
| `Launcher.LauncherApp.RescanItems` | launcher.py:349-351 | The method replaces the catalog with a fresh scan of both folders, then redraws. Both caches afterwards are what one lookup per newly shown item, in order, leaves behind. Existing memory-cache entries are kept, and exactly the newly shown items' slugs are added. Icon files that decoded still decode. |

## Left out

- `launch_item` (launcher.py:108-112) is left out. It starts a process through the operating system, which has no meaning in the model.
- The widgets are left out: window setup, header, filter buttons, search entry, scroll frame (launcher.py:273-339), and the labels and buttons of each card. Only the card's item, cell and icon are modelled.
- The "nothing found" label is modelled only as the empty list of cards.
- The internals of `extract_icon_png` are left out: the GDI calls, the conversion of the icon to a bitmap, and the sizes. The function is modelled by its outcome, through the `shellIcons` oracle.
- The icon handle is not modelled. It is released only on the success path of that code.
- Images are not decoded or resized (80×80): an image is the file it came from, or the colour of the placeholder.
- The log lines printed on errors are left out.
- `main` and the creation of the icon cache directory at start-up are left out.
- Paths are compared exactly. The Windows file system ignores letter case, but here two paths that differ only in case are different keys.
- `Text.Lower` covers ASCII and Latin-1 capitals only. Python's `str.lower` also maps other scripts and a few characters whose lower-case form has a different length. Those are outside the model.
- `Paths.JoinPath` covers a plain file name joined to a folder, the only use in the core. Names with a drive or a root, which `ntpath.join` treats specially, are outside the model.
- Only the application writes the icon cache directory. Another process deleting or replacing icon files between lookups is not modelled.
- A folder that `os.listdir` cannot read is left out. The call (launcher.py:86) sits outside any `try`: a permission error, or the folder vanishing after the `isdir` test (launcher.py:83), makes `scan_folder` raise. At start-up that aborts `__init__` (launcher.py:210). In `rescan_items` (launcher.py:350-351) it leaves the catalog unchanged and skips the redraw. In the model every directory has a listing, so `Catalog.ScanFolder`, `Launcher.LauncherApp.constructor` and `Launcher.LauncherApp.RescanItems` always succeed.
- Launcher.PlaceholderInMemoryOnly: does not cover a failure after the save in `extract_icon_png`. If `DestroyIcon` (launcher.py:185) raises after `img.save` (launcher.py:184), the function returns `None` although a decodable `<slug>.png` was written. The model treats the extractor as all-or-nothing, so that file is not recorded in `iconFiles`, and the lookup falls back to the placeholder.
