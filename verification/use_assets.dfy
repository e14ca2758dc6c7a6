/**
 * The infinite-query configuration of the assets hook: the first page is
 * requested at cursor 0, every request asks for 50 items with the hook's
 * search and filters, the next page parameter is the last page's
 * `nextCursor`, and the list the views see is all pages' data concatenated.
 * The pages themselves are kept by the query library; here they are a
 * sequence passed in, or the sequence a run of successful loads produces.
 */
module UseAssets {
  import opened Wrappers
  import opened Assets
  import opened FetchAssets

  /** Every request asks for this many items. */
  const PageSize: nat := 50

  /** The page parameter of the first request. */
  const InitialPageParam: nat := 0

  /** The query key `["assets", search, filters]`: one page chain per key. */
  datatype QueryKey = QueryKey(search: string, filters: Filters)

  /** `queryFn`: fetch the page at `pageParam` for the key's search and filters. */
  function QueryFn(key: QueryKey, pageParam: nat, aborted: bool, random: nat -> real): (r: Result<Page, FetchError>)
    ensures r.Success? <==> !aborted
    ensures r.Success? ==> |r.value.data| <= PageSize
    ensures r.Success? ==> (r.value.nextCursor.Some? <==> pageParam + PageSize < MaxTotalItems)
    ensures r.Success? && r.value.nextCursor.Some? ==> r.value.nextCursor.value == pageParam + PageSize
    ensures r.Success? ==> forall k :: 0 <= k < |r.value.data| ==>
      Matches(r.value.data[k], Some(key.search), Some(key.filters))
  {
    Fetch(Some(pageParam), PageSize, Some(key.search), Some(key.filters), aborted, random)
  }

  /** `getNextPageParam`: the last page's continuation cursor, if any. */
  function GetNextPageParam(lastPage: Page): Option<nat> {
    lastPage.nextCursor
  }

  /** The parameter of the next request: the initial one, then whatever the last page says. */
  function NextPageParam(pages: seq<Page>): Option<nat> {
    if pages == [] then Some(InitialPageParam) else GetNextPageParam(pages[|pages| - 1])
  }

  /** `hasNextPage`: there is a last page and it names a next cursor. */
  predicate HasNextPage(pages: seq<Page>) {
    pages != [] && GetNextPageParam(pages[|pages| - 1]).Some?
  }

  /** `select`: the pages' data, flattened in fetch order. */
  function Select(pages: seq<Page>): seq<Asset> {
    if pages == [] then [] else pages[0].data + Select(pages[1..])
  }

  /** The number of assets on all pages together. */
  function TotalCount(pages: seq<Page>): nat {
    if pages == [] then 0 else |pages[0].data| + TotalCount(pages[1..])
  }

  /** The page a successful request at `cursor` yields for `key`. */
  function PageAt(key: QueryKey, random: nat -> real, cursor: nat): (p: Page)
    ensures QueryFn(key, cursor, false, random) == Success(p)
    ensures p.nextCursor == NextCursor(cursor, PageSize)
  {
    QueryFn(key, cursor, false, random).value
  }

  /** A key's successful `queryFn`, as a function of the page parameter. */
  function KeyQuery(key: QueryKey, random: nat -> real): nat -> Page {
    (cursor: nat) => PageAt(key, random, cursor)
  }

  /**
   * The pages after `n` successful loads through `query`: the first load
   * uses the initial parameter, each later one the last page's next cursor,
   * and a load once no next cursor exists adds nothing.
   */
  function LoadedPages(query: nat -> Page, n: nat): seq<Page> {
    if n == 0 then []
    else
      var pages := LoadedPages(query, n - 1);
      match NextPageParam(pages)
      case None => pages
      case Some(cursor) => pages + [query(cursor)]
  }

  /** The pages of a key's chain: 20,000 of them, the last at cursor 999,950. */
  const ChainLength: nat := MaxTotalItems / PageSize

  /** Flattening distributes over concatenated page lists. */
  lemma {:induction false} SelectAppend(a: seq<Page>, b: seq<Page>)
    ensures Select(a + b) == Select(a) + Select(b)
  {
    if a == [] {
      assert a + b == b;
    } else {
      var ab := a + b;
      assert ab[0] == a[0] && ab[1..] == a[1..] + b;
      SelectAppend(a[1..], b);
      assert Select(ab) == a[0].data + (Select(a[1..]) + Select(b));
    }
  }

  /** Page counts add up over concatenated page lists. */
  lemma {:induction false} TotalCountAppend(a: seq<Page>, b: seq<Page>)
    ensures TotalCount(a + b) == TotalCount(a) + TotalCount(b)
  {
    if a == [] {
      assert a + b == b;
    } else {
      var ab := a + b;
      assert ab[0] == a[0] && ab[1..] == a[1..] + b;
      TotalCountAppend(a[1..], b);
    }
  }

  /** The flattened list is as long as all pages together. */
  lemma {:induction false} SelectLength(pages: seq<Page>)
    ensures |Select(pages)| == TotalCount(pages)
  {
    if pages != [] {
      SelectLength(pages[1..]);
    }
  }

  /**
   * Page `k`'s assets occupy the block of the flattened list that starts
   * after the assets of pages `0 .. k-1`: earlier pages' items come first.
   */
  lemma {:induction false} SelectAt(pages: seq<Page>, k: nat, j: nat)
    requires k < |pages| && j < |pages[k].data|
    ensures TotalCount(pages[..k]) + j < |Select(pages)|
    ensures Select(pages)[TotalCount(pages[..k]) + j] == pages[k].data[j]
  {
    assert pages == pages[..k] + [pages[k]] + pages[k + 1..];
    SelectAppend(pages[..k] + [pages[k]], pages[k + 1..]);
    SelectAppend(pages[..k], [pages[k]]);
    SelectLength(pages[..k]);
    assert Select([pages[k]]) == pages[k].data + Select([]);
  }

  /**
   * A chain of loads through a `queryFn` that continues at `cursor + 50`
   * below the cap: after `n` loads there are `min(n, 20000)` pages, page
   * `k` was requested at cursor `50 * k`, and a next page exists until page
   * 20,000 (the one at cursor 999,950) has been loaded.
   */
  lemma {:induction false} ChainCursors(query: nat -> Page, n: nat)
    requires forall cursor: nat :: query(cursor).nextCursor == NextCursor(cursor, PageSize)
    ensures var pages := LoadedPages(query, n);
      && |pages| == (if n <= ChainLength then n else ChainLength)
      && (forall k :: 0 <= k < |pages| ==> pages[k] == query(PageSize * k))
      && (HasNextPage(pages) <==> 0 < n < ChainLength)
  {
    assert ChainLength == 20_000;
    if n > 0 {
      ChainCursors(query, n - 1);
      var prev := LoadedPages(query, n - 1);
      var pages := LoadedPages(query, n);
      if prev == [] {
        assert NextPageParam(prev) == Some(0);
        assert pages == [query(0)];
      } else {
        var last := prev[|prev| - 1];
        assert last == query(PageSize * (|prev| - 1));
        if |prev| < ChainLength {
          assert NextPageParam(prev) == Some(PageSize * |prev|);
          assert pages == prev + [query(PageSize * |prev|)];
        } else {
          assert NextPageParam(prev) == None;
          assert pages == prev;
        }
      }
    }
  }

  /**
   * A key's chain: page `k` is what `fetchAssets` returns for cursor
   * `50 * k`, page size 50 and the key's own search and filters, so every
   * key starts at cursor 0; the chain has `min(n, 20000)` pages and ends
   * after the page at cursor 999,950.
   */
  lemma {:induction false} KeyChain(key: QueryKey, random: nat -> real, n: nat)
    ensures var pages := LoadedPages(KeyQuery(key, random), n);
      && |pages| == (if n <= ChainLength then n else ChainLength)
      && (forall k :: 0 <= k < |pages| ==>
            Fetch(Some(PageSize * k), PageSize, Some(key.search), Some(key.filters), false, random) == Success(pages[k]))
      && (HasNextPage(pages) <==> 0 < n < ChainLength)
  {
    ChainCursors(KeyQuery(key, random), n);
  }

  /** Each load appends the new page's assets to the end of the flattened list. */
  lemma GrowsAtTheEnd(query: nat -> Page, n: nat)
    ensures var before := Select(LoadedPages(query, n));
      var after := Select(LoadedPages(query, n + 1));
      && |before| <= |after|
      && after[..|before|] == before
  {
    var pages := LoadedPages(query, n);
    match NextPageParam(pages)
    case None =>
    case Some(cursor) =>
      SelectAppend(pages, [query(cursor)]);
  }

  /**
   * Under a category filter the flattened list shows an asset twice: with
   * crypto only, asset-53 is item 10 of page 0 and item 0 of page 1, which
   * are rows 10 and 40 of the list.
   */
  lemma DuplicateRowsExample(random: nat -> real)
    ensures var list := Select(LoadedPages(KeyQuery(QueryKey("", Filters(Only(Crypto))), random), 2));
      && |list| == 80
      && list[10].id == list[40].id
  {
    var key := QueryKey("", Filters(Only(Crypto)));
    var pages := LoadedPages(KeyQuery(key, random), 2);
    KeyChain(key, random, 2);
    OverlappingPagesExample(random);
    assert pages[0] == Respond(0, 50, Some(""), Some(Filters(Only(Crypto))), random);
    assert pages[1] == Respond(50, 50, Some(""), Some(Filters(Only(Crypto))), random);
    SameAsUnsearched(0, 50, Some(Filters(Only(Crypto))), random);
    SameAsUnsearched(50, 50, Some(Filters(Only(Crypto))), random);
    assert pages[..1] == [pages[0]];
    SelectAt(pages, 0, 10);
    SelectAt(pages, 1, 0);
    SelectLength(pages);
    assert pages[1..][1..] == [];
  }
}
