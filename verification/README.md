# Asset ledger: paging, filter drawer and virtual list, in Dafny

This project models the logic behind a React screen that lists synthetic
financial assets in an infinitely scrolling virtual list. Four parts of that
screen are modelled:

- **The mock paging API `fetchAssets`.** Each call generates a batch of four
  times the page size. It keeps one asset category unless the filter is
  "all", keeps what matches the search term (ignoring case), cuts the result
  to the page size, and returns the next cursor while it stays below one
  million. A call whose abort signal fires fails with `AbortError` and
  returns no assets.
- **The `useAssets` hook's infinite-query configuration.** The first page is
  requested at cursor 0. Every request asks for 50 items with the hook's
  search and filters. The next cursor is the last page's `nextCursor`, and
  the list is the pages' data concatenated.
- **The filter drawer.** It is a state machine over the committed filters,
  the staged selection and the open flag. Its events are open, pick, reset,
  apply and close.
- **The ledger component.** This covers:
  - the row count handed to the virtualizer and the loader-row test;
  - the effect that requests the next page;
  - the effect that scrolls back to the top;
  - the three-way choice between loading skeletons, "No assets found" and
    the virtual list.

Modules:

| file | module | contents |
|---|---|---|
| `wrappers.dfy` | `Wrappers` | `Option`, `Result` |
| `assets.dfy` | `Assets` | the asset record, categories and `AssetFilters` |
| `text.dfy` | `Text` | decimal rendering of numbers, ASCII `toLowerCase`, `includes` |
| `seqs.dfy` | `Seqs` | `filter` and `slice(0, n)` on sequences, and the positions a filter keeps |
| `fetch_assets.dfy` | `FetchAssets` | `getAsset`, `fetchAssets` and the properties of a page |
| `use_assets.dfy` | `UseAssets` | `queryFn`, `getNextPageParam`, `select` and chains of loaded pages |
| `filter_drawer.dfy` | `FilterDrawer` | the drawer's buttons and the class `DrawerState` |
| `asset_ledger.dfy` | `AssetLedger` | row count, loader row, load-more guard, body, and the class `Ledger` |

The pure parts are functions over values:

- the API pipeline;
- the hook's lambdas;
- the row rules.

The drawer and the ledger's own state are classes whose methods update
fields, because the components overwrite that state in place.

`AssetFilters` is defined in `src/types/filters.ts`, which is not part of
this model. Its shape is inferred from the drawer's option list as
`{ type: AssetType | "all" }`.

How React-specific behaviour is modelled:

- **Filter identity.** React compares effect dependencies by reference, and
  filter values are JavaScript objects. The model therefore keeps a filter
  object (`FiltersObject`) apart from its value. Picking an option or
  resetting always creates a new object. Opening the drawer stages the
  committed object itself.
- **Apply and close.** `onChange` and `onClose` run in one click handler,
  so React batches their updates. The drawer's sync effect therefore does
  not run between them.

## Model

| member | source | states |
|---|---|---|
| Text.NatToString | src/api/fetchAssets.ts:48-53 | the `${n}` rendering of an asset number is a non-empty string of decimal digits, one digit exactly for numbers below 10 |
| Text.NatToStringValue | src/api/fetchAssets.ts:48-53 | the rendering of `n` is a digit string whose decimal value is exactly `n`, with no leading zero from two digits up, so `asset-${n}` and the name and ticker carry `n` itself |
| Text.NatToStringInjective | src/api/fetchAssets.ts:51 | two asset numbers with the same rendering are equal, so the number in an id identifies it |
| Text.PrefixedNumbersDiffer | src/api/fetchAssets.ts:51-53 | `asset-a` and `asset-b` (or `<prefix>-a` and `<prefix>-b`) differ whenever a and b differ |
| Text.LowerChar | src/api/fetchAssets.ts:98-100 | ASCII lower-casing maps A–Z up by 32 and leaves every other character alone |
| Text.ToLower | src/api/fetchAssets.ts:98-100 | lower-casing keeps the length, maps each character by `LowerChar`, and leaves no upper-case ASCII letter |
| Text.IncludesAt | src/api/fetchAssets.ts:100 | `s.includes(t)` holds exactly when `t` occurs in `s` at some offset |
| Text.Includes | src/api/fetchAssets.ts:100 | `s.includes(t)`: `t` is a prefix of `s` or of one of its suffixes |
| Seqs.Filter | src/api/fetchAssets.ts:94 | a filter's result is no longer than its input and every element satisfies the predicate |
| Seqs.Take | src/api/fetchAssets.ts:105 | `slice(0, n)` has length min(n, length) and consists of the input's first elements |
| Seqs.Kept | src/api/fetchAssets.ts:94 | the kept positions strictly increase, lie in range, satisfy the predicate, and include every position that satisfies it |
| Seqs.FilterSuffixIsGather | src/api/fetchAssets.ts:94 | filtering a suffix yields the elements at that suffix's kept positions |
| Seqs.FilterPositions | src/api/fetchAssets.ts:94 | the j-th filtered element is the element at the j-th kept position, so a filter is an order-preserving subsequence |
| Seqs.FilterKeepsAll | src/api/fetchAssets.ts:93-102 | a filter whose predicate holds for every element removes nothing |
| Seqs.FilterTwice | src/api/fetchAssets.ts:93-102 | two filters in a row keep exactly what their conjunction keeps |
| Seqs.FilterAppend | src/api/fetchAssets.ts:94 | filtering distributes over concatenation |
| Seqs.TakeFilterPositions | src/api/fetchAssets.ts:99-105 | the first n filtered elements sit, in order, at the first n kept positions, which strictly increase |
| Seqs.TakeMissesOnlyLater | src/api/fetchAssets.ts:99-105 | a position that satisfies the filter but is not among the first n kept ones comes after all of them, and then n of them were taken |
| FetchAssets.Types | src/api/fetchAssets.ts:4 | `TYPES`: the five categories in cycle order stock, bond, crypto, real estate, commodity |
| FetchAssets.Prefix | src/api/fetchAssets.ts:6-32 | `CONFIG[type].prefix`: NSE, GOI, COIN, PROP, MCX |
| FetchAssets.BasePrice | src/api/fetchAssets.ts:6-32 | `CONFIG[type].price`: 2,500, 10,000, 3,500,000, 7,500,000, 60,000 |
| FetchAssets.MaxTotalItems | src/api/fetchAssets.ts:70 | `MAX_TOTAL_ITEMS`, the cap of 1,000,000 that ends the cursor chain |
| FetchAssets.TypeFilterActive | src/api/fetchAssets.ts:93 | the category step runs when filters are given and their type is not "all" |
| FetchAssets.SearchActive | src/api/fetchAssets.ts:97 | the search step runs for a truthy search, that is, a present and non-empty string |
| FetchAssets.GetAsset | src/api/fetchAssets.ts:41-60 | the asset at batch position i after cursor c: number i+1+c in its id, name and ticker; category `TYPES[i mod 5]`; name suffix `names[i mod len]`; figures from `random` at seeds i, i+1 and i+2; its contract: the value is price times quantity |
| FetchAssets.Batch | src/api/fetchAssets.ts:90-91 | the batch is the 4·limit assets at positions 0 .. 4·limit−1 |
| FetchAssets.TypeStage | src/api/fetchAssets.ts:93-95 | the category step never lengthens the list; under a category filter every asset it keeps has that category; under "all" or no filter it changes nothing |
| FetchAssets.SearchStage | src/api/fetchAssets.ts:97-102 | the search step never lengthens the list; under a non-empty search every asset it keeps is a hit for the lower-cased term; under an empty or absent search it changes nothing |
| FetchAssets.SearchHit | src/api/fetchAssets.ts:100 | an asset is a search hit when its lower-cased name or its lower-cased ticker includes the term |
| FetchAssets.Matches | src/api/fetchAssets.ts:93-102 | an asset passes the active category filter (if any) and the active search (if any) |
| FetchAssets.Names | src/api/fetchAssets.ts:6-32 | each category has a non-empty list of display names |
| FetchAssets.TypeIndex | src/api/fetchAssets.ts:4 | each category sits at exactly one place of the five-category cycle |
| FetchAssets.Spread | src/api/fetchAssets.ts:45-46 | `low + random(seed) * width` lies in [low, low + width) for a generator value in [0, 1) |
| FetchAssets.Price | src/api/fetchAssets.ts:45-47 | the rounded price `Math.round(base * (0.8 + r * 0.4))` stays within 20% of the base price, up to half a unit, for r in [0, 1) |
| FetchAssets.Round | src/api/fetchAssets.ts:47 | `Math.round` returns the integer within half a unit of its argument, halves rounding up |
| FetchAssets.AssetFigures | src/api/fetchAssets.ts:45-58 | for a generator with values in [0, 1): value is price times quantity, the price is within 20% of the category's base price up to rounding, the quantity is in [0.1, 10), and the daily change is in [-10, 10) |
| FetchAssets.NextCursor | src/api/fetchAssets.ts:104-108 | the next cursor exists exactly when cursor + limit < 1,000,000, and then it equals cursor + limit |
| FetchAssets.PipelineIsOneFilter | src/api/fetchAssets.ts:93-102 | the category step followed by the search step keeps exactly the assets that match both active filters; an "all" or absent filter and an empty or absent search impose nothing |
| FetchAssets.Respond | src/api/fetchAssets.ts:90-109 | a page has at most `limit` assets, every one matching the active filters, and the next cursor follows the 1,000,000 cap regardless of filters |
| FetchAssets.Fetch | src/api/fetchAssets.ts:72-110 | the call fails with `AbortError` exactly when aborted; otherwise the page is bounded by `limit` and the next cursor is `cursor + limit` below the cap, with the cursor defaulting to 0 |
| FetchAssets.BatchShape | src/api/fetchAssets.ts:42-53 | the batch has 4·limit entries; entry i has id `asset-(cursor+i+1)`, type `TYPES[i mod 5]` and ticker `<prefix>-(cursor+i+1)`; no two entries share an id or a ticker |
| FetchAssets.DifferentTickerPrefixes | src/api/fetchAssets.ts:53 | tickers of different categories differ whatever number follows the dash |
| FetchAssets.PageIsSubsequenceOfBatch | src/api/fetchAssets.ts:91-105 | a page is an order-preserving subsequence of its batch: the j-th asset is the batch entry at the j-th of strictly increasing origins |
| FetchAssets.PageMissesOnlyLater | src/api/fetchAssets.ts:93-105 | a matching batch entry is missing from a page only when the page is full and all its assets come earlier in the batch |
| FetchAssets.BatchSubsequence | src/api/fetchAssets.ts:91-105 | the first `limit` batch entries that pass a test are the batch assets at the first `limit` kept positions, which strictly increase and stay below 4·limit |
| FetchAssets.RespondIsTakeFilter | src/api/fetchAssets.ts:91-105 | a page is the first `limit` batch entries that match |
| FetchAssets.PageIds | src/api/fetchAssets.ts:90-105 | page ids are `asset-(cursor+o+1)` for strictly increasing origins o, lie in [cursor+1, cursor+4·limit], and are pairwise distinct |
| FetchAssets.IdsFollowOrigins | src/api/fetchAssets.ts:48-51 | assets drawn from increasing batch positions carry increasing, distinct asset numbers in range |
| FetchAssets.AssetId | src/api/fetchAssets.ts:42-53 | the asset at batch position i has id `asset-(cursor+i+1)`, the category at i mod 5 in the type list and the ticker `<that category's prefix>-(cursor+i+1)` |
| FetchAssets.UnfilteredPage | src/api/fetchAssets.ts:91-105 | with no category filter and no search, a page is exactly batch entries 0 .. limit-1 |
| FetchAssets.EveryFifthAt | src/api/fetchAssets.ts:42 | an increasing list of exactly the positions ≡ k (mod 5) below n has 5j+k at index j |
| FetchAssets.EveryFifthLength | src/api/fetchAssets.ts:42 | such a list has (n + 4 − k) / 5 entries |
| FetchAssets.EveryFifthPositions | src/api/fetchAssets.ts:42 | increasing positions below n that are exactly those ≡ k (mod 5) are k, k+5, k+10, …, (n + 4 − k) / 5 of them |
| FetchAssets.TypeKeptPositions | src/api/fetchAssets.ts:91-95 | a category filter keeps batch positions k, k+5, k+10, … with k the category's place in the cycle |
| FetchAssets.PageOfEveryFifth | src/api/fetchAssets.ts:104-105 | slicing those positions gives min(limit, (4·limit+4−k)/5) assets, the j-th at position 5j+k |
| FetchAssets.TypePageOrigins | src/api/fetchAssets.ts:91-105 | a category-filtered page without search is the first `limit` of the positions 5j+k, each entry the asset generated at its position |
| FetchAssets.TypeFilteredPage | src/api/fetchAssets.ts:90-105 | a category-filtered page without search holds min(limit, (4·limit+4−k)/5) assets, the j-th from batch position 5j+k, and is never full once limit ≥ 5 |
| FetchAssets.FirstPageExample | src/api/fetchAssets.ts:72-110 | cursor 0, limit 50, no filters: 50 assets `asset-1` .. `asset-50`, next cursor 50 |
| FetchAssets.LastPageExample | src/api/fetchAssets.ts:104-108 | cursor 999,950 with limit 50 yields no next cursor, whatever the filters |
| FetchAssets.CryptoPageExample | src/api/fetchAssets.ts:90-105 | a crypto-only page of size 10 holds 8 assets, all crypto |
| FetchAssets.OverlappingPagesExample | src/api/fetchAssets.ts:90-105 | crypto pages at cursors 0 and 50 hold 40 assets each and both contain `asset-53` |
| FetchAssets.SameIdDifferentNameExample | src/api/fetchAssets.ts:48-52 | position 50 at cursor 0 and position 0 at cursor 50 both get id `asset-51`, but one is named "Asset 51: HDFC Bank" and the other "Asset 51: Reliance Ind" |
| UseAssets.PageSize | src/hooks/useAssets.ts:12 | every request asks for `limit: 50` |
| UseAssets.InitialPageParam | src/hooks/useAssets.ts:8 | the first request's cursor is 0 |
| UseAssets.QueryFn | src/hooks/useAssets.ts:9-16 | a request with limit 50 and the key's search and filters succeeds exactly when not aborted; its page has at most 50 assets, every one matching the key's search and filters, and its next cursor follows the cap |
| UseAssets.GetNextPageParam | src/hooks/useAssets.ts:17 | the next page parameter is the last page's `nextCursor` |
| UseAssets.NextPageParam | src/hooks/useAssets.ts:8-17 | the next request's parameter: 0 before any page, then the last page's `nextCursor`, absent when it is absent |
| UseAssets.HasNextPage | src/hooks/useAssets.ts:17 | a next page exists when a last page exists and names a next cursor |
| UseAssets.Select | src/hooks/useAssets.ts:18 | the list is the pages' data concatenated in fetch order |
| UseAssets.LoadedPages | src/hooks/useAssets.ts:8-17 | the pages after n successful loads: each load appends the page at the next parameter, and nothing once none exists |
| UseAssets.PageAt | src/hooks/useAssets.ts:9-17 | the page a successful request at a cursor returns, with next cursor `cursor + 50` below the cap |
| UseAssets.SelectAppend | src/hooks/useAssets.ts:18 | flattening distributes over concatenated page lists |
| UseAssets.TotalCountAppend | src/hooks/useAssets.ts:18 | page counts add up over concatenated page lists |
| UseAssets.SelectLength | src/hooks/useAssets.ts:18 | the flattened list is as long as all pages together |
| UseAssets.SelectAt | src/hooks/useAssets.ts:18 | page k's j-th asset sits at position (size of pages 0..k−1) + j of the list, so earlier pages come first |
| UseAssets.ChainCursors | src/hooks/useAssets.ts:8-17 | after n loads there are min(n, 20000) pages, page k was requested at cursor 50·k, and a next page exists until the page at cursor 999,950 |
| UseAssets.KeyChain | src/hooks/useAssets.ts:7-17 | every key's chain starts at cursor 0 and its page k is `fetchAssets` at cursor 50·k with limit 50 and the key's own search and filters |
| UseAssets.GrowsAtTheEnd | src/hooks/useAssets.ts:17-18 | each load keeps the existing list as a prefix and appends to it |
| UseAssets.DuplicateRowsExample | src/hooks/useAssets.ts:7-18 | with crypto only and two pages loaded, the list has 80 rows and rows 10 and 40 carry the same id |
| FetchAssets.SameAsUnsearched | src/api/fetchAssets.ts:97 | for every cursor, limit and filter, a page for the empty search string equals the page for an absent search |
| FilterDrawer.FilterOptions | src/components/FilterDrawer.tsx:12-19 | the six buttons in display order: "All Assets", then Stocks, Bonds, Crypto, Real Estate and Commodities with their category values |
| FilterDrawer.IsActive | src/components/FilterDrawer.tsx:96 | a button is highlighted when its value equals the staged type |
| FilterDrawer.IsFiltered | src/components/FilterDrawer.tsx:37 | the staged selection is filtered when its type is not "all" |
| FilterDrawer.EachValueOnce | src/components/FilterDrawer.tsx:12-19 | each filter value ("all" and the five categories) labels exactly one button |
| FilterDrawer.ExactlyOneActive | src/components/FilterDrawer.tsx:95-96 | the first button is "all", each category has exactly one button, and whatever is staged exactly one button is highlighted |
| FilterDrawer.TypeButton | src/components/FilterDrawer.tsx:12-19 | each category's button is one of the five after "All Assets" |
| FilterDrawer.FiltersObject.constructor | src/components/FilterDrawer.tsx:100 | a filter object carries the value it was created with |
| FilterDrawer.DrawerState.constructor | src/components/FilterDrawer.tsx:22 | the committed filters start as "all", the drawer is closed, and the staged selection is the committed object |
| FilterDrawer.DrawerState.ResetShown | src/components/FilterDrawer.tsx:37 | Reset is shown exactly when "All Assets" is not highlighted, that is, when a category button is |
| FilterDrawer.DrawerState.Open | src/components/FilterDrawer.tsx:24-26 | opening a closed drawer stages the committed object; opening an open one changes nothing; the committed filters never change |
| FilterDrawer.DrawerState.Pick | src/components/FilterDrawer.tsx:100 | a click stages a new object with the button's value and changes neither the committed filters nor the open flag |
| FilterDrawer.DrawerState.Reset | src/components/FilterDrawer.tsx:33-35 | Reset stages a new "all" object, hiding the Reset control, without committing or closing |
| FilterDrawer.DrawerState.Apply | src/components/FilterDrawer.tsx:28-31 | Apply passes exactly the staged value to `onChange`, commits the staged object and closes |
| FilterDrawer.DrawerState.Close | src/components/FilterDrawer.tsx:84-86 | closing leaves both the committed filters and the staged selection untouched |
| FilterDrawer.DrawerState.ReopenAfterPick | src/components/FilterDrawer.tsx:24-26 | open, pick, close, reopen: the drawer stages the unchanged committed filters again |
| AssetLedger.LoadingRows | src/components/AssetLedger.tsx:98 | the loading body shows 12 skeleton rows |
| AssetLedger.RowCount | src/components/AssetLedger.tsx:30 | the virtualizer's count: the number of assets, plus one while a next page exists |
| AssetLedger.IsLoaderRow | src/components/AssetLedger.tsx:112 | a row is the loader when its index exceeds `assets.length - 1`, computed as a signed number |
| AssetLedger.ShouldFetchNextPage | src/components/AssetLedger.tsx:39-44 | the load-more guard: some row is visible, the last visible index is at least `assets.length`, a next page exists and none is being fetched |
| AssetLedger.LoaderRowIsLast | src/components/AssetLedger.tsx:112 | among the virtualizer's rows, an index is the loader iff a next page exists and it equals `assets.length`; every other index is an asset |
| AssetLedger.FetchWhenLoaderVisible | src/components/AssetLedger.tsx:38-45 | the next page is requested exactly when the last visible row is the loader row, a next page exists and no fetch is in flight; never with nothing visible |
| AssetLedger.RenderBody | src/components/AssetLedger.tsx:96-128 | exactly one body: 12 skeletons iff loading, "No assets found" iff not loading with an empty list, else one row per visible index (a loader past the end, that asset otherwise) |
| AssetLedger.RenderedRows | src/components/AssetLedger.tsx:109-128 | for the virtualizer's rows, only the row at `assets.length` can be a loader, only while a next page exists, and every other row shows the asset at its index |
| AssetLedger.Ledger.constructor | src/components/AssetLedger.tsx:16-19 | filters start as "all" with the drawer closed, scrolled to the top, nothing requested |
| AssetLedger.Ledger.Key | src/hooks/useAssets.ts:7 | the query key is the ledger's search together with the value of its committed filters |
| AssetLedger.Ledger.OpenDrawer | src/components/AssetLedger.tsx:73 | the filter button opens the drawer, which then shows the committed filters if it was closed |
| AssetLedger.Ledger.CloseDrawer | src/components/AssetLedger.tsx:136 | `onClose` closes the drawer without committing anything |
| AssetLedger.Ledger.ApplyFilters | src/components/AssetLedger.tsx:47-49 | the only change to the ledger's filters: the staged object is committed, the query key takes its value, and the list scrolls to the top exactly when a different object was committed |
| AssetLedger.Ledger.SearchChanged | src/components/AssetLedger.tsx:47-49 | a new search scrolls to the top exactly when it differs from the current one |
| AssetLedger.Ledger.Scroll | src/components/AssetLedger.tsx:95 | scrolling moves only the list's offset |
| AssetLedger.Ledger.LoadMoreEffect | src/components/AssetLedger.tsx:38-45 | one effect run requests one next page exactly when the load-more guard holds, and changes nothing else |
| AssetLedger.Ledger.ReapplyUnchanged | src/components/AssetLedger.tsx:47-49 | opening and applying without a pick keeps the query key and the scroll position |
| AssetLedger.Ledger.ReapplySameCategory | src/components/AssetLedger.tsx:47-49 | re-picking the committed category and applying scrolls to the top while the query key stays the same |

## Left out

- The floating-point generator `random`, built on `Math.sin` (src/api/fetchAssets.ts:35-38), is a parameter of type `nat -> real`.
- FetchAssets.AssetFigures: the price, quantity, value and change arithmetic is done on exact reals, not IEEE doubles. Its bounds hold for the real computation; the double computation can differ by rounding, for example a quantity rounding up to exactly 10.
- The 500 ms latency, `setTimeout`, `clearTimeout` and the abort listener are not modelled. They become one input, `aborted`, which is true when the signal was already set or fired before the delay ran out.
- The query library's internals are not modelled: its cache, in-flight de-duplication, cancellation of stale keys, `placeholderData: keepPreviousData` and the `isLoading` / `isFetchingNextPage` flags. The flags are inputs. The pages are a sequence passed in, or one built by `LoadedPages`. `Ledger.LoadMoreEffect` counts `fetchNextPage` calls rather than performing them.
- The virtualizer's window computation (row height 72, overscan 5, total size and offsets) is not modelled. The visible indices are an input sequence.
- `SearchBar` is not modelled: its debounce is timer behaviour and its `trim` happens before the ledger sees the search. The ledger takes the search string as given.
- `toLowerCase` is ASCII only. Generated names and tickers are ASCII; a search term with other letters is not lowered beyond ASCII.
- `AssetRow`, `SkeletonRow`, `App.tsx` and all styling are not modelled; they are presentation only.
- FilterDrawer.DrawerState.Open: the model proves that opening stages the committed filters, not that the staged selection equals the committed filters whenever the drawer is open. The latter does not hold: a pick while open changes the staged selection until Apply or close. `ReopenAfterPick` states the consequence that does hold.
- FetchAssets.BatchShape: cursor, limit and asset numbers are exact naturals. In the source they are JavaScript doubles, so the model matches only while cursor + 4·limit ≤ 2^53. Above that, neighbouring asset numbers round to the same double and ids repeat. `useAssets` never requests a cursor above 999,950.
- FetchAssets.PageIds: id distinctness and the id range hold for exact naturals. They hold for the source only while cursor + 4·limit ≤ 2^53, as for `BatchShape`.
- Text.NatToString: renders every natural in plain decimal digits. JavaScript switches to exponent notation (`1e+21`) from 10^21 upward, so the model matches `${n}` only below that.
- Pages of one chain are not disjoint, and an id does not determine the asset: the batch spans 4·limit positions while the cursor advances by limit. The model proves these overlaps by example (`OverlappingPagesExample`, `DuplicateRowsExample`, `SameIdDifferentNameExample`) and states no disjointness property.
