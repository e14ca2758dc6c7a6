/**
 * The ledger screen: the rows the virtual list shows (assets plus one loader
 * row while more pages exist), the body it renders, the effect that asks
 * for the next page when the loader row scrolls into view, and the ledger's
 * own state (search, filters, drawer, scroll position).
 */
module AssetLedger {
  import opened Assets
  import opened FilterDrawer
  import opened UseAssets

  /** Skeleton rows shown while the first page loads. */
  const LoadingRows: nat := 12

  /** The virtualizer's row count: the assets, plus a loader row while a next page exists. */
  function RowCount(loaded: nat, hasNextPage: bool): nat {
    if hasNextPage then loaded + 1 else loaded
  }

  /** `index > assets.length - 1`, evaluated on JavaScript numbers (so `-1` for an empty list). */
  predicate IsLoaderRow(index: nat, loaded: nat) {
    index > loaded as int - 1
  }

  /**
   * Among the virtualizer's rows, the loader row is exactly the one after the
   * last asset, and it exists only while a next page exists; every asset has
   * its own row before it.
   */
  lemma LoaderRowIsLast(index: nat, loaded: nat, hasNextPage: bool)
    requires index < RowCount(loaded, hasNextPage)
    ensures IsLoaderRow(index, loaded) <==> hasNextPage && index == loaded
    ensures !IsLoaderRow(index, loaded) <==> index < loaded
  {
  }

  /**
   * The load-more effect's test: the last visible row lies at or beyond the
   * end of the loaded assets, a next page exists and none is being fetched.
   */
  predicate ShouldFetchNextPage(visible: seq<nat>, loaded: nat, hasNextPage: bool, isFetchingNextPage: bool) {
    visible != [] && visible[|visible| - 1] >= loaded && hasNextPage && !isFetchingNextPage
  }

  /**
   * With the virtualizer showing rows below its count, the next page is
   * requested exactly when the last visible row is the loader row and no
   * fetch is in flight; with nothing visible nothing is requested.
   */
  lemma FetchWhenLoaderVisible(visible: seq<nat>, loaded: nat, hasNextPage: bool, isFetchingNextPage: bool)
    requires forall j :: 0 <= j < |visible| ==> visible[j] < RowCount(loaded, hasNextPage)
    ensures ShouldFetchNextPage(visible, loaded, hasNextPage, isFetchingNextPage)
        <==> visible != [] && IsLoaderRow(visible[|visible| - 1], loaded) && hasNextPage && !isFetchingNextPage
    ensures ShouldFetchNextPage(visible, loaded, hasNextPage, isFetchingNextPage)
        ==> visible[|visible| - 1] == loaded
  {
    if visible != [] {
      LoaderRowIsLast(visible[|visible| - 1], loaded, hasNextPage);
    }
  }

  /** One rendered row of the virtual list. */
  datatype Row = LoaderRow | AssetRow(asset: Asset)

  /** What the list area shows. */
  datatype Body = Skeletons(count: nat) | NoAssetsFound | VirtualList(rows: seq<Row>)

  /**
   * The list area: skeletons while loading, "No assets found" for an empty
   * list, otherwise one row per visible index, a loader row for an index past
   * the last asset and that asset's row for any other.
   */
  function RenderBody(isLoading: bool, assets: seq<Asset>, visible: seq<nat>): (b: Body)
    ensures b.Skeletons? <==> isLoading
    ensures b.Skeletons? ==> b.count == LoadingRows
    ensures b.NoAssetsFound? <==> !isLoading && assets == []
    ensures b.VirtualList? ==> assets != [] && |b.rows| == |visible|
    ensures b.VirtualList? ==> forall j :: 0 <= j < |visible| ==>
      (b.rows[j] == LoaderRow <==> visible[j] >= |assets|) &&
      (visible[j] < |assets| ==> b.rows[j] == AssetRow(assets[visible[j]]))
  {
    if isLoading then Skeletons(LoadingRows)
    else if |assets| == 0 then NoAssetsFound
    else VirtualList(seq(|visible|, j requires 0 <= j < |visible| =>
      if IsLoaderRow(visible[j], |assets|) then LoaderRow else AssetRow(assets[visible[j]])))
  }

  /**
   * Rendering the virtualizer's rows: the asset rows show the list's assets
   * in list order, and a loader row appears only as the last row past the
   * end, while a next page exists.
   */
  lemma RenderedRows(assets: seq<Asset>, hasNextPage: bool, visible: seq<nat>)
    requires assets != []
    requires forall j :: 0 <= j < |visible| ==> visible[j] < RowCount(|assets|, hasNextPage)
    ensures var b := RenderBody(false, assets, visible);
      && b.VirtualList?
      && (forall j :: 0 <= j < |visible| ==>
            (b.rows[j] == LoaderRow <==> hasNextPage && visible[j] == |assets|) &&
            (b.rows[j].AssetRow? ==> b.rows[j].asset == assets[visible[j]]))
  {
    var b := RenderBody(false, assets, visible);
    forall j | 0 <= j < |visible|
      ensures b.rows[j] == LoaderRow <==> hasNextPage && visible[j] == |assets|
    {
      LoaderRowIsLast(visible[j], |assets|, hasNextPage);
    }
  }

  /**
   * The ledger's state: the search it was given, the drawer (which holds the
   * committed filters and the open flag), the list's scroll offset and how
   * many times the load-more effect has called `fetchNextPage`.
   */
  class Ledger {
    const drawer: DrawerState
    var search: string
    var scrollTop: nat
    var nextPageRequests: nat

    /** A fresh ledger: unfiltered, drawer closed, scrolled to the top. */
    constructor (search: string)
      ensures this.search == search && scrollTop == 0 && nextPageRequests == 0
      ensures fresh(drawer) && drawer.committed.value == Filters(All)
      ensures drawer.staged == drawer.committed && !drawer.open
    {
      drawer := new DrawerState();
      this.search := search;
      scrollTop := 0;
      nextPageRequests := 0;
    }

    /** The key the assets hook queries with: the search and the committed filters' value. */
    function Key(): QueryKey
      reads this, drawer
    {
      QueryKey(search, drawer.committed.value)
    }

    /** The filter button. */
    method OpenDrawer()
      modifies drawer
      ensures drawer.open && drawer.committed == old(drawer.committed)
      ensures drawer.staged == if old(drawer.open) then old(drawer.staged) else drawer.committed
    {
      drawer.Open();
    }

    /** The drawer's backdrop or close button. */
    method CloseDrawer()
      modifies drawer
      ensures !drawer.open
      ensures drawer.committed == old(drawer.committed) && drawer.staged == old(drawer.staged)
    {
      drawer.Close();
    }

    /**
     * "Apply Filters": the staged object becomes the ledger's filters and the
     * drawer closes. The scroll effect compares filters by reference, so the
     * list returns to the top exactly when a different object was committed;
     * the query key changes with the filters' value.
     */
    method ApplyFilters()
      modifies this, drawer
      ensures drawer.committed == old(drawer.staged) && drawer.staged == old(drawer.staged) && !drawer.open
      ensures search == old(search) && nextPageRequests == old(nextPageRequests)
      ensures scrollTop == if drawer.committed != old(drawer.committed) then 0 else old(scrollTop)
      ensures Key() == QueryKey(old(search), old(drawer.staged.value))
    {
      var before := drawer.committed;
      var applied := drawer.Apply();
      if drawer.committed != before {
        scrollTop := 0;
      }
    }

    /** A new search from the search bar; strings compare by value, so only a different one scrolls up. */
    method SearchChanged(value: string)
      modifies this
      ensures search == value && nextPageRequests == old(nextPageRequests)
      ensures scrollTop == if value != old(search) then 0 else old(scrollTop)
    {
      if value != search {
        search := value;
        scrollTop := 0;
      }
    }

    /** The user scrolls the list. */
    method Scroll(top: nat)
      modifies this
      ensures scrollTop == top && search == old(search) && nextPageRequests == old(nextPageRequests)
    {
      scrollTop := top;
    }

    /** One run of the load-more effect for the rendered rows and the query's status. */
    method LoadMoreEffect(visible: seq<nat>, loaded: nat, hasNextPage: bool, isFetchingNextPage: bool)
      modifies this
      ensures search == old(search) && scrollTop == old(scrollTop)
      ensures nextPageRequests == old(nextPageRequests)
        + (if ShouldFetchNextPage(visible, loaded, hasNextPage, isFetchingNextPage) then 1 else 0)
    {
      if ShouldFetchNextPage(visible, loaded, hasNextPage, isFetchingNextPage) {
        nextPageRequests := nextPageRequests + 1;
      }
    }

    /**
     * Opening the drawer and applying without picking commits the same
     * object: neither the query key nor the scroll position changes.
     */
    method ReapplyUnchanged()
      requires !drawer.open
      modifies this, drawer
      ensures Key() == old(Key()) && scrollTop == old(scrollTop) && !drawer.open
    {
      OpenDrawer();
      ApplyFilters();
    }

    /**
     * Picking the category that is already committed and applying commits a
     * new object with the same value: the list scrolls to the top although
     * the query key, and so the data, stays the same.
     */
    method ReapplySameCategory()
      requires !drawer.open
      modifies this, drawer
      ensures Key() == old(Key()) && scrollTop == 0 && !drawer.open
    {
      OpenDrawer();
      var k := drawer.committed.value.kind;
      drawer.Pick(FilterOptions[if k.All? then 0 else TypeButton(k.only)]);
      ApplyFilters();
    }
  }
}
