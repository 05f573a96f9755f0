/** What the grid shows: `get_filtered_items` (launcher.py:355-368) and the placement of cards
    in `refresh_list` (launcher.py:386-389). */
module View {
  import Seqs
  import Text
  import opened Catalog

  /** The kind filters that restrict the list; any other value ("all") shows every kind. */
  predicate RestrictsKind(filterKind: string)
  {
    filterKind == "game" || filterKind == "launcher"
  }

  function HasKind(kind: string): Item -> bool
  {
    (item: Item) => item.kind == kind
  }

  /** The search test: the (already lower-cased) text occurs in the lower-cased name or path. */
  predicate MatchesText(item: Item, text: string)
  {
    Text.Contains(Text.Lower(item.name), text) || Text.Contains(Text.Lower(item.path), text)
  }

  function Matching(text: string): Item -> bool
  {
    (item: Item) => MatchesText(item, text)
  }

  /** The items of the chosen kind, in catalog order. */
  function ByKind(items: seq<Item>, filterKind: string): seq<Item>
  {
    if RestrictsKind(filterKind) then Seqs.Filter(HasKind(filterKind), items) else items
  }

  /** `get_filtered_items`: the kind filter, then the search filter when there is search text. */
  function FilteredItems(items: seq<Item>, filterKind: string, searchText: string): seq<Item>
  {
    var byKind := ByKind(items, filterKind);
    if searchText != "" then Seqs.Filter(Matching(searchText), byKind) else byKind
  }

  /** The view keeps catalog order: it is a subsequence of the catalog. */
  lemma FilteredIsSubsequence(items: seq<Item>, filterKind: string, searchText: string)
    ensures Seqs.IsSubsequence(FilteredItems(items, filterKind, searchText), items)
  {
    var byKind := ByKind(items, filterKind);
    if RestrictsKind(filterKind) {
      Seqs.FilterIsSubsequence(HasKind(filterKind), items);
    } else {
      Seqs.SubsequenceRefl(items);
    }
    if searchText != "" {
      Seqs.FilterIsSubsequence(Matching(searchText), byKind);
      Seqs.SubsequenceTrans(FilteredItems(items, filterKind, searchText), byKind, items);
    }
  }

  /** An item is shown exactly when it is in the catalog, has the filtered kind (if the filter
      restricts kinds) and matches the search text (if there is one). */
  lemma FilteredMembership(items: seq<Item>, filterKind: string, searchText: string, x: Item)
    ensures x in FilteredItems(items, filterKind, searchText) <==>
      && x in items
      && (RestrictsKind(filterKind) ==> x.kind == filterKind)
      && (searchText != "" ==> MatchesText(x, searchText))
  {
    var byKind := ByKind(items, filterKind);
    if RestrictsKind(filterKind) {
      Seqs.FilterMembership(HasKind(filterKind), items, x);
    }
    if searchText != "" {
      Seqs.FilterMembership(Matching(searchText), byKind, x);
    }
  }

  /** Without search text the view is the kind-filtered catalog, and with the "all" filter
      (or any value other than "game" and "launcher") it is the whole catalog. */
  lemma FilteredWithoutSearch(items: seq<Item>, filterKind: string)
    ensures FilteredItems(items, filterKind, "") == ByKind(items, filterKind)
    ensures !RestrictsKind(filterKind) ==> FilteredItems(items, filterKind, "") == items
  {
  }

  /** With the "game" filter and no search text, the view is exactly the games, in order. */
  lemma GamesOnly(items: seq<Item>)
    ensures var v := FilteredItems(items, "game", "");
      && Seqs.IsSubsequence(v, items)
      && (forall i :: 0 <= i < |v| ==> v[i].kind == "game")
      && (forall x :: x in items && x.kind == "game" ==> x in v)
  {
    FilteredIsSubsequence(items, "game", "");
    forall x | x in items && x.kind == "game"
      ensures x in FilteredItems(items, "game", "")
    {
      FilteredMembership(items, "game", "", x);
    }
    forall i | 0 <= i < |FilteredItems(items, "game", "")|
      ensures FilteredItems(items, "game", "")[i].kind == "game"
    {
      FilteredMembership(items, "game", "", FilteredItems(items, "game", "")[i]);
    }
  }

  /** Row and column of the card at `index` in a grid of three columns: `index // 3` and
      `index % 3` (the index is never negative, so Python's floor division agrees with
      Dafny's). */
  function GridCell(index: nat): (cell: (nat, nat))
    ensures cell.1 < 3 && cell.0 * 3 + cell.1 == index
  {
    (index / 3, index % 3)
  }

  /** Cards are laid out row by row: a later card sits in a later row, or further right in the
      same row, so no two cards share a cell. */
  lemma GridRowMajor(i: nat, j: nat)
    requires i < j
    ensures GridCell(i).0 < GridCell(j).0 || (GridCell(i).0 == GridCell(j).0 && GridCell(i).1 < GridCell(j).1)
  {
  }
}
