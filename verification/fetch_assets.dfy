/**
 * The mock paging API: every call generates a batch of four times the page
 * size, keeps the requested category, keeps what matches the search term
 * (ignoring case), cuts the result to the page size and hands back the next
 * cursor until the synthetic universe of one million items is used up.
 */
module FetchAssets {
  import opened Wrappers
  import opened Text
  import opened Seqs
  import opened Assets

  /** The category cycle: position `i` of a batch gets `Types[i % 5]`. */
  const Types: seq<AssetType> := [Stock, Bond, Crypto, RealEstate, Commodity]

  /** No continuation cursor is issued at or beyond this many items. */
  const MaxTotalItems: nat := 1_000_000

  /** The ticker prefix of each category. */
  function Prefix(t: AssetType): string {
    match t
    case Stock => "NSE"
    case Bond => "GOI"
    case Crypto => "COIN"
    case RealEstate => "PROP"
    case Commodity => "MCX"
  }

  /** The display names each category cycles through. */
  function Names(t: AssetType): (names: seq<string>)
    ensures |names| > 0
  {
    match t
    case Stock => ["Reliance Ind", "TCS", "HDFC Bank", "Infosys", "Tata Motors", "ITC Ltd"]
    case Bond => ["GOI Bond 2030", "NHAI Tax Free", "REC Bond", "SGB Series"]
    case Crypto => ["Bitcoin", "Ethereum", "Solana", "Matic (Polygon)", "Tether"]
    case RealEstate => ["Mumbai Apt", "Bangalore Villa", "Gurgaon Office", "Goa Plot", "Hyd Tech Park"]
    case Commodity => ["Gold", "Silver", "Copper", "Platinum", "Zinc"]
  }

  /** Where a category sits in the cycle. */
  function TypeIndex(t: AssetType): (k: nat)
    ensures k < |Types| && Types[k] == t
    ensures forall i :: 0 <= i < |Types| && Types[i] == t ==> i == k
  {
    match t
    case Stock => 0
    case Bond => 1
    case Crypto => 2
    case RealEstate => 3
    case Commodity => 4
  }

  /** The base price of each category, which the generated price varies around. */
  function BasePrice(t: AssetType): nat {
    match t
    case Stock => 2500
    case Bond => 10000
    case Crypto => 3500000
    case RealEstate => 7500000
    case Commodity => 60000
  }

  /** `Math.round`: the nearest integer, with halves rounded up. */
  function Round(x: real): (n: int)
    ensures n as real - 0.5 <= x < n as real + 0.5
  {
    (x + 0.5).Floor
  }

  /**
   * `low + r * width`, the source's `low + random(seed) * width`: a generator
   * value in [0, 1) lands in [low, low + width).
   */
  function Spread(r: real, low: real, width: real): (x: real)
    requires width > 0.0
    ensures 0.0 <= r < 1.0 ==> low <= x < low + width
  {
    assert 0.0 <= r < 1.0 ==> r * width < 1.0 * width by {
      if 0.0 <= r < 1.0 {
        assert (1.0 - r) * width > 0.0;
      }
    }
    low + r * width
  }

  /**
   * The category's base price scaled by a variation in [0.8, 1.2) and
   * rounded: within 20% of the base, up to rounding.
   */
  function Price(t: AssetType, r: real): (p: real)
    ensures 0.0 <= r < 1.0 ==> BasePrice(t) as real * 0.8 - 0.5 <= p <= BasePrice(t) as real * 1.2 + 0.5
  {
    var base := BasePrice(t) as real;
    var variation := Spread(r, 0.8, 0.4);
    assert 0.0 <= r < 1.0 ==> base * 0.8 <= base * variation <= base * 1.2 by {
      if 0.0 <= r < 1.0 {
        assert base * (variation - 0.8) >= 0.0;
        assert base * (1.2 - variation) >= 0.0;
      }
    }
    Round(base * variation) as real
  }

  /**
   * The synthetic asset at batch position `index` of a batch that starts
   * after `cursor`. `random` is the seeded generator: the source computes it
   * with a sine in floating point, so the model takes it as a parameter and
   * does the rest of the arithmetic exactly.
   */
  function GetAsset(index: nat, cursor: nat, random: nat -> real): (a: Asset)
    ensures a.value == a.price * a.quantity
  {
    var t := Types[index % |Types|];
    var names := Names(t);
    var quantity := Spread(random(index + 1), 0.1, 9.9);
    var price := Price(t, random(index));
    var num := NatToString(index + 1 + cursor);
    Asset(
      id := "asset-" + num,
      name := "Asset " + num + ": " + names[index % |names|],
      ticker := Prefix(t) + "-" + num,
      kind := t,
      value := price * quantity,
      price := price,
      quantity := quantity,
      change24h := Spread(random(index + 2), -10.0, 20.0),
      updatedAt := None)
  }

  /**
   * With a generator whose values lie in [0, 1), as `x - Math.floor(x)`
   * produces them, the price stays within 20% of its category's base price
   * (up to rounding), the quantity lies in [0.1, 10), the daily change in
   * [-10, 10), and the value is price times quantity.
   */
  lemma {:induction false} AssetFigures(index: nat, cursor: nat, random: nat -> real)
    requires forall seed: nat :: 0.0 <= random(seed) < 1.0
    ensures var a := GetAsset(index, cursor, random);
      var base := BasePrice(a.kind) as real;
      && a.value == a.price * a.quantity
      && base * 0.8 - 0.5 <= a.price <= base * 1.2 + 0.5
      && 0.1 <= a.quantity < 10.0
      && -10.0 <= a.change24h < 10.0
  {
  }

  /** The oversized batch: `4 * limit` generated assets. */
  function Batch(cursor: nat, limit: nat, random: nat -> real): seq<Asset> {
    seq(4 * limit, i requires 0 <= i < 4 * limit => GetAsset(i, cursor, random))
  }

  /** The category filter runs only when a filter other than "all" is given. */
  predicate TypeFilterActive(filters: Option<Filters>) {
    filters.Some? && filters.value.kind.Only?
  }

  /** The search filter runs only for a non-empty search string. */
  predicate SearchActive(search: Option<string>) {
    search.Some? && search.value != ""
  }

  /** The lower-cased name or the lower-cased ticker includes the lower-cased term. */
  predicate SearchHit(a: Asset, term: string) {
    Includes(ToLower(a.name), term) || Includes(ToLower(a.ticker), term)
  }

  /** The category step of the pipeline. */
  function TypeStage(all: seq<Asset>, filters: Option<Filters>): (r: seq<Asset>)
    ensures |r| <= |all|
    ensures TypeFilterActive(filters) ==> forall k :: 0 <= k < |r| ==> r[k].kind == filters.value.kind.only
    ensures !TypeFilterActive(filters) ==> r == all
  {
    if TypeFilterActive(filters) then
      var t := filters.value.kind.only;
      Filter(all, (a: Asset) => a.kind == t)
    else all
  }

  /** The search step of the pipeline. */
  function SearchStage(s: seq<Asset>, search: Option<string>): (r: seq<Asset>)
    ensures |r| <= |s|
    ensures SearchActive(search) ==> forall k :: 0 <= k < |r| ==> SearchHit(r[k], ToLower(search.value))
    ensures !SearchActive(search) ==> r == s
  {
    if SearchActive(search) then
      var term := ToLower(search.value);
      Filter(s, (a: Asset) => SearchHit(a, term))
    else s
  }

  /** The continuation cursor: `cursor + limit` while that stays below the cap. */
  function NextCursor(cursor: nat, limit: nat): (next: Option<nat>)
    ensures next.Some? <==> cursor + limit < MaxTotalItems
    ensures next.Some? ==> next.value == cursor + limit
  {
    var n := cursor + limit;
    if n < MaxTotalItems then Some(n) else None
  }

  /** One response page: the assets and, unless the stream has ended, the next cursor. */
  datatype Page = Page(data: seq<Asset>, nextCursor: Option<nat>)

  /** The only way a fetch fails: its abort signal fired during the simulated latency. */
  datatype FetchError = AbortError

  /** What a single asset must satisfy to survive both filters. */
  predicate Matches(a: Asset, search: Option<string>, filters: Option<Filters>) {
    && (TypeFilterActive(filters) ==> a.kind == filters.value.kind.only)
    && (SearchActive(search) ==> SearchHit(a, ToLower(search.value)))
  }

  /** The two filter steps together keep exactly the assets that `Matches`. */
  lemma {:induction false} PipelineIsOneFilter(all: seq<Asset>, search: Option<string>, filters: Option<Filters>)
    ensures SearchStage(TypeStage(all, filters), search) == Filter(all, (a: Asset) => Matches(a, search, filters))
  {
    var matches := (a: Asset) => Matches(a, search, filters);
    var byType := TypeStage(all, filters);
    if TypeFilterActive(filters) {
      var t := filters.value.kind.only;
      if SearchActive(search) {
        var term := ToLower(search.value);
        FilterTwice(all, (a: Asset) => a.kind == t, (a: Asset) => SearchHit(a, term), matches);
      } else {
        assert forall a :: matches(a) == (a.kind == t);
        FilterKeepsAll(all, (a: Asset) => true);
        FilterTwice(all, (a: Asset) => a.kind == t, (a: Asset) => true, matches);
        FilterKeepsAll(byType, (a: Asset) => true);
      }
    } else {
      if SearchActive(search) {
        var term := ToLower(search.value);
        FilterTwice(all, (a: Asset) => true, (a: Asset) => SearchHit(a, term), matches);
        FilterKeepsAll(all, (a: Asset) => true);
      } else {
        FilterKeepsAll(all, matches);
      }
    }
  }

  /** The work done once the latency has passed without an abort. */
  function Respond(cursor: nat, limit: nat, search: Option<string>, filters: Option<Filters>,
                   random: nat -> real): (p: Page)
    ensures |p.data| <= limit
    ensures forall k :: 0 <= k < |p.data| ==> Matches(p.data[k], search, filters)
    ensures p.nextCursor.Some? <==> cursor + limit < MaxTotalItems
    ensures p.nextCursor.Some? ==> p.nextCursor.value == cursor + limit
  {
    var all := Batch(cursor, limit, random);
    var matching := SearchStage(TypeStage(all, filters), search);
    PipelineIsOneFilter(all, search, filters);
    Page(Take(matching, limit), NextCursor(cursor, limit))
  }

  /**
   * `fetchAssets`. `aborted` says whether the abort signal was already set
   * or fired before the 500 ms delay elapsed; the cursor defaults to 0.
   */
  function Fetch(cursor: Option<nat>, limit: nat, search: Option<string>, filters: Option<Filters>,
                 aborted: bool, random: nat -> real): (r: Result<Page, FetchError>)
    ensures r.Failure? <==> aborted
    ensures r.Success? ==> |r.value.data| <= limit
    ensures r.Success? ==> (r.value.nextCursor.Some? <==> cursor.GetOr(0) + limit < MaxTotalItems)
    ensures r.Success? && r.value.nextCursor.Some? ==> r.value.nextCursor.value == cursor.GetOr(0) + limit
  {
    if aborted then Failure(AbortError)
    else Success(Respond(cursor.GetOr(0), limit, search, filters, random))
  }

  // Properties of a response page

  /**
   * The batch has `4 * limit` entries; the entry at position `i` is asset
   * number `cursor + i + 1` of category `Types[i % 5]`, so no two entries of
   * one batch share an id or a ticker.
   */
  lemma {:induction false} BatchShape(cursor: nat, limit: nat, random: nat -> real)
    ensures var b := Batch(cursor, limit, random);
      && |b| == 4 * limit
      && (forall i :: 0 <= i < |b| ==>
            && b[i].id == "asset-" + NatToString(cursor + i + 1)
            && b[i].kind == Types[i % 5]
            && b[i].ticker == Prefix(Types[i % 5]) + "-" + NatToString(cursor + i + 1))
      && (forall i, j :: 0 <= i < j < |b| ==> b[i].id != b[j].id && b[i].ticker != b[j].ticker)
  {
    var b := Batch(cursor, limit, random);
    forall i | 0 <= i < |b|
      ensures b[i].id == "asset-" + NatToString(cursor + i + 1)
      ensures b[i].kind == Types[i % 5]
      ensures b[i].ticker == Prefix(Types[i % 5]) + "-" + NatToString(cursor + i + 1)
    {
      AssetId(i, cursor, random);
    }
    EntriesDiffer(b, cursor);
  }

  /** Entries numbered by position after `cursor` have pairwise different ids and tickers. */
  lemma EntriesDiffer(b: seq<Asset>, cursor: nat)
    requires forall i :: 0 <= i < |b| ==>
      && b[i].id == "asset-" + NatToString(cursor + i + 1)
      && b[i].kind == Types[i % 5]
      && b[i].ticker == Prefix(Types[i % 5]) + "-" + NatToString(cursor + i + 1)
    ensures forall i, j :: 0 <= i < j < |b| ==> b[i].id != b[j].id && b[i].ticker != b[j].ticker
  {
    forall i, j | 0 <= i < j < |b|
      ensures b[i].id != b[j].id && b[i].ticker != b[j].ticker
    {
      NumberedEntriesDiffer(b[i], b[j], cursor + i + 1, cursor + j + 1);
    }
  }

  /** Two assets numbered differently have different ids and different tickers. */
  lemma NumberedEntriesDiffer(x: Asset, y: Asset, m: nat, n: nat)
    requires m != n
    requires x.id == "asset-" + NatToString(m) && x.ticker == Prefix(x.kind) + "-" + NatToString(m)
    requires y.id == "asset-" + NatToString(n) && y.ticker == Prefix(y.kind) + "-" + NatToString(n)
    ensures x.id != y.id && x.ticker != y.ticker
  {
    PrefixedNumbersDiffer("asset-", m, n);
    if x.kind == y.kind {
      PrefixedNumbersDiffer(Prefix(x.kind) + "-", m, n);
    } else {
      DifferentTickerPrefixes(x.kind, y.kind, NatToString(m), NatToString(n));
    }
  }

  /** Tickers of different categories differ, whatever digits follow the dash. */
  lemma DifferentTickerPrefixes(t: AssetType, u: AssetType, x: string, y: string)
    requires t != u
    ensures Prefix(t) + "-" + x != Prefix(u) + "-" + y
  {
    assert (Prefix(t) + "-" + x)[0] == Prefix(t)[0];
    assert (Prefix(u) + "-" + y)[0] == Prefix(u)[0];
  }

  /** The test every asset of a page passed. */
  function MatchTest(search: Option<string>, filters: Option<Filters>): Asset -> bool {
    (a: Asset) => Matches(a, search, filters)
  }

  /** The batch positions a page's assets come from. */
  function Origins(cursor: nat, limit: nat, search: Option<string>, filters: Option<Filters>,
                   random: nat -> real): seq<nat>
  {
    Take(Kept(Batch(cursor, limit, random), MatchTest(search, filters), 0), limit)
  }

  /**
   * A page is an order-preserving subsequence of its batch: its j-th asset
   * is the batch entry at the j-th origin, and the origins strictly increase.
   */
  lemma {:induction false} PageIsSubsequenceOfBatch(cursor: nat, limit: nat, search: Option<string>,
                                                     filters: Option<Filters>, random: nat -> real)
    ensures var data := Respond(cursor, limit, search, filters, random).data;
      var o := Origins(cursor, limit, search, filters, random);
      && |o| == |data|
      && Increasing(o)
      && (forall j :: 0 <= j < |o| ==> o[j] < 4 * limit && data[j] == GetAsset(o[j], cursor, random))
  {
    RespondIsTakeFilter(cursor, limit, search, filters, random);
    BatchSubsequence(Batch(cursor, limit, random), MatchTest(search, filters), cursor, limit, random,
                     Respond(cursor, limit, search, filters, random).data,
                     Origins(cursor, limit, search, filters, random));
  }

  /** The first `limit` batch entries passing `keep` are the batch entries at the first `limit` kept positions. */
  lemma BatchSubsequence(all: seq<Asset>, keep: Asset -> bool, cursor: nat, limit: nat, random: nat -> real,
                         data: seq<Asset>, o: seq<nat>)
    requires all == Batch(cursor, limit, random)
    requires data == Take(Filter(all, keep), limit)
    requires o == Take(Kept(all, keep, 0), limit)
    ensures |o| == |data|
    ensures Increasing(o)
    ensures forall j :: 0 <= j < |o| ==> o[j] < 4 * limit && data[j] == GetAsset(o[j], cursor, random)
  {
    TakeFilterPositions(all, keep, limit, data, o);
    forall j | 0 <= j < |o|
      ensures o[j] < 4 * limit && data[j] == GetAsset(o[j], cursor, random)
    {
      assert data[j] == all[o[j]];
    }
  }

  /**
   * A matching batch entry is left out of a page only when the page is full
   * and every entry it kept comes earlier in the batch.
   */
  lemma {:induction false} PageMissesOnlyLater(cursor: nat, limit: nat, search: Option<string>,
                                               filters: Option<Filters>, random: nat -> real)
    ensures var o := Origins(cursor, limit, search, filters, random);
      (forall m :: 0 <= m < 4 * limit && Matches(GetAsset(m, cursor, random), search, filters) && m !in o ==>
            |o| == limit && forall j :: 0 <= j < |o| ==> o[j] < m)
  {
    var all := Batch(cursor, limit, random);
    var keep := MatchTest(search, filters);
    var o := Origins(cursor, limit, search, filters, random);
    TakeMissesOnlyLater(all, keep, limit, o);
    forall m | 0 <= m < 4 * limit && Matches(GetAsset(m, cursor, random), search, filters) && m !in o
      ensures |o| == limit && forall j :: 0 <= j < |o| ==> o[j] < m
    {
      assert keep(all[m]);
    }
  }

  /** The page is the first `limit` batch entries that pass `MatchTest`. */
  lemma RespondIsTakeFilter(cursor: nat, limit: nat, search: Option<string>,
                            filters: Option<Filters>, random: nat -> real)
    ensures Respond(cursor, limit, search, filters, random).data
         == Take(Filter(Batch(cursor, limit, random), MatchTest(search, filters)), limit)
  {
    PipelineIsOneFilter(Batch(cursor, limit, random), search, filters);
  }

  /**
   * The ids of a page are the ids of asset numbers `cursor + o + 1` for its
   * increasing origins `o`, so they lie in `cursor + 1 .. cursor + 4 * limit`
   * and no id appears twice on one page.
   */
  lemma {:induction false} PageIds(cursor: nat, limit: nat, search: Option<string>,
                filters: Option<Filters>, random: nat -> real)
    ensures var data := Respond(cursor, limit, search, filters, random).data;
      var o := Origins(cursor, limit, search, filters, random);
      && |o| == |data|
      && (forall j :: 0 <= j < |data| ==>
            && cursor + 1 <= cursor + o[j] + 1 <= cursor + 4 * limit
            && data[j].id == "asset-" + NatToString(cursor + o[j] + 1))
      && (forall j, j' :: 0 <= j < j' < |data| ==> o[j] < o[j'] && data[j].id != data[j'].id)
  {
    PageIsSubsequenceOfBatch(cursor, limit, search, filters, random);
    IdsFollowOrigins(Respond(cursor, limit, search, filters, random).data,
                     Origins(cursor, limit, search, filters, random), cursor, limit, random);
  }

  /** Assets drawn from increasing batch positions carry increasing, distinct asset numbers. */
  lemma IdsFollowOrigins(data: seq<Asset>, o: seq<nat>, cursor: nat, limit: nat, random: nat -> real)
    requires |o| == |data| && Increasing(o)
    requires forall j :: 0 <= j < |o| ==> o[j] < 4 * limit && data[j] == GetAsset(o[j], cursor, random)
    ensures forall j :: 0 <= j < |data| ==>
      && cursor + 1 <= cursor + o[j] + 1 <= cursor + 4 * limit
      && data[j].id == "asset-" + NatToString(cursor + o[j] + 1)
    ensures forall j, j' :: 0 <= j < j' < |data| ==> o[j] < o[j'] && data[j].id != data[j'].id
  {
    forall j | 0 <= j < |data|
      ensures data[j].id == "asset-" + NatToString(cursor + o[j] + 1)
    {
      AssetId(o[j], cursor, random);
    }
    NumberedIdsDiffer(data, o, cursor);
  }

  /** Ids numbered by strictly increasing positions are pairwise different. */
  lemma NumberedIdsDiffer(data: seq<Asset>, o: seq<nat>, cursor: nat)
    requires |o| == |data| && Increasing(o)
    requires forall j :: 0 <= j < |data| ==> data[j].id == "asset-" + NatToString(cursor + o[j] + 1)
    ensures forall j, j' :: 0 <= j < j' < |data| ==> data[j].id != data[j'].id
  {
    forall j, j' | 0 <= j < j' < |data|
      ensures data[j].id != data[j'].id
    {
      PrefixedNumbersDiffer("asset-", cursor + o[j] + 1, cursor + o[j'] + 1);
    }
  }

  /** The id, category and ticker of the asset at a batch position. */
  lemma {:induction false} AssetId(index: nat, cursor: nat, random: nat -> real)
    ensures GetAsset(index, cursor, random).id == "asset-" + NatToString(cursor + index + 1)
    ensures GetAsset(index, cursor, random).kind == Types[index % 5]
    ensures GetAsset(index, cursor, random).ticker == Prefix(Types[index % 5]) + "-" + NatToString(cursor + index + 1)
  {
  }

  /** An empty search string filters nothing, just like an absent one (`if (search)` is false for both). */
  lemma SameAsUnsearched(cursor: nat, limit: nat, filters: Option<Filters>, random: nat -> real)
    ensures Respond(cursor, limit, Some(""), filters, random) == Respond(cursor, limit, None, filters, random)
  {
  }

  /** With no category and no search filter a page is the first `limit` batch entries. */
  lemma UnfilteredPage(cursor: nat, limit: nat, search: Option<string>,
                       filters: Option<Filters>, random: nat -> real)
    requires !TypeFilterActive(filters) && !SearchActive(search)
    ensures var data := Respond(cursor, limit, search, filters, random).data;
      && |data| == limit
      && forall j :: 0 <= j < limit ==> data[j] == GetAsset(j, cursor, random)
  {
  }

  /**
   * An increasing list of positions below `n` holding exactly the positions
   * congruent to `k` modulo 5 has `5 * j + k` at index `j`.
   */
  lemma {:induction false} EveryFifthAt(pos: seq<nat>, n: nat, k: nat, j: nat)
    requires k < 5 && Increasing(pos)
    requires forall i :: 0 <= i < |pos| ==> pos[i] < n && pos[i] % 5 == k
    requires forall m :: 0 <= m < n && m % 5 == k ==> m in pos
    requires j < |pos|
    ensures pos[j] == 5 * j + k
    decreases j
  {
    if j > 0 {
      EveryFifthAt(pos, n, k, j - 1);
    }
    assert pos[j] == 5 * (pos[j] / 5) + k;
    assert 5 * j + k <= pos[j] < n;
    var m := 5 * j + k;
    assert m % 5 == k;
    assert m in pos;
    var i :| 0 <= i < |pos| && pos[i] == m;
  }

  /** Such a list has one entry per multiple of 5 (offset by `k`) below `n`. */
  lemma EveryFifthLength(pos: seq<nat>, n: nat, k: nat)
    requires k < 5 && Increasing(pos)
    requires forall i :: 0 <= i < |pos| ==> pos[i] < n && pos[i] % 5 == k
    requires forall m :: 0 <= m < n && m % 5 == k ==> m in pos
    ensures |pos| == (n + 4 - k) / 5
  {
    var len := |pos|;
    var m := 5 * len + k;
    assert m % 5 == k;
    if m < n {
      assert m in pos;
      var i :| 0 <= i < |pos| && pos[i] == m;
      EveryFifthAt(pos, n, k, i);
    }
    if len > 0 {
      EveryFifthAt(pos, n, k, len - 1);
    }
  }

  /**
   * A page filtered by category `t` alone holds batch positions
   * `k, k + 5, k + 10, ...` with `k` the category's place in the cycle:
   * `min(limit, (4 * limit + 4 - k) / 5)` assets, so from a page size of 5
   * upwards such a page is never full.
   */
  lemma {:induction false} TypeFilteredPage(cursor: nat, limit: nat, search: Option<string>, t: AssetType,
                         random: nat -> real)
    requires !SearchActive(search)
    ensures EveryFifthPage(Respond(cursor, limit, search, Some(Filters(Only(t))), random).data,
                           cursor, limit, TypeIndex(t), random)
    ensures limit >= 5 ==> |Respond(cursor, limit, search, Some(Filters(Only(t))), random).data| < limit
  {
    var data := Respond(cursor, limit, search, Some(Filters(Only(t))), random).data;
    var o, pos := TypePageOrigins(cursor, limit, search, t, random);
    PageOfEveryFifth(data, o, pos, cursor, limit, TypeIndex(t), random);
  }

  /** The origins of a category-filtered page, and the batch positions it draws them from. */
  lemma TypePageOrigins(cursor: nat, limit: nat, search: Option<string>, t: AssetType, random: nat -> real)
    returns (o: seq<nat>, pos: seq<nat>)
    requires !SearchActive(search)
    ensures var data := Respond(cursor, limit, search, Some(Filters(Only(t))), random).data;
      && |pos| == (4 * limit + 4 - TypeIndex(t)) / 5
      && (forall j :: 0 <= j < |pos| ==> pos[j] == 5 * j + TypeIndex(t))
      && o == Take(pos, limit)
      && |o| == |data|
      && forall j :: 0 <= j < |o| ==> data[j] == GetAsset(o[j], cursor, random)
  {
    var filters := Some(Filters(Only(t)));
    o := Origins(cursor, limit, search, filters, random);
    pos := Kept(Batch(cursor, limit, random), MatchTest(search, filters), 0);
    TypeKeptPositions(cursor, limit, search, t, random);
    PageIsSubsequenceOfBatch(cursor, limit, search, filters, random);
  }

  /**
   * `data` holds `min(limit, (4 * limit + 4 - k) / 5)` assets, the j-th of
   * them from batch position `5 * j + k`.
   */
  predicate EveryFifthPage(data: seq<Asset>, cursor: nat, limit: nat, k: nat, random: nat -> real) {
    var count := (4 * limit + 4 - k) / 5;
    && |data| == (if limit <= count then limit else count)
    && (forall j :: 0 <= j < |data| ==> data[j] == GetAsset(5 * j + k, cursor, random))
  }

  /** A page cut from every fifth batch position, starting at `k`. */
  lemma PageOfEveryFifth(data: seq<Asset>, o: seq<nat>, pos: seq<nat>, cursor: nat, limit: nat, k: nat,
                         random: nat -> real)
    requires k < 5
    requires |pos| == (4 * limit + 4 - k) / 5
    requires forall j :: 0 <= j < |pos| ==> pos[j] == 5 * j + k
    requires o == Take(pos, limit)
    requires |o| == |data| && forall j :: 0 <= j < |o| ==> data[j] == GetAsset(o[j], cursor, random)
    ensures EveryFifthPage(data, cursor, limit, k, random)
    ensures limit >= 5 ==> |data| < limit
  {
    FirstFifths(o, pos, limit, k);
    forall j | 0 <= j < |data|
      ensures data[j] == GetAsset(5 * j + k, cursor, random)
    {
      assert o[j] == 5 * j + k;
    }
    FewerFifthsThanLimit(limit, k);
  }

  /** The first `limit` of the positions `5 * j + k`: `min(limit, |pos|)` of them, the j-th being `5 * j + k`. */
  lemma FirstFifths(o: seq<nat>, pos: seq<nat>, limit: nat, k: nat)
    requires forall j :: 0 <= j < |pos| ==> pos[j] == 5 * j + k
    requires o == Take(pos, limit)
    ensures |o| == if limit <= |pos| then limit else |pos|
    ensures forall j :: 0 <= j < |o| ==> o[j] == 5 * j + k
  {
    forall j | 0 <= j < |o|
      ensures o[j] == 5 * j + k
    {
      assert o[j] == pos[j];
    }
  }

  /** From a limit of five on, every fifth of `4 * limit` positions is fewer than `limit`. */
  lemma FewerFifthsThanLimit(limit: nat, k: nat)
    requires k < 5
    ensures limit >= 5 ==> (4 * limit + 4 - k) / 5 < limit
  {
  }

  /** The batch positions a category filter keeps are every fifth one, starting at the category's place. */
  lemma {:induction false} TypeKeptPositions(cursor: nat, limit: nat, search: Option<string>, t: AssetType,
                                             random: nat -> real)
    requires !SearchActive(search)
    ensures var pos := Kept(Batch(cursor, limit, random), MatchTest(search, Some(Filters(Only(t)))), 0);
      && |pos| == (4 * limit + 4 - TypeIndex(t)) / 5
      && forall j :: 0 <= j < |pos| ==> pos[j] == 5 * j + TypeIndex(t)
  {
    var all := Batch(cursor, limit, random);
    var keep := MatchTest(search, Some(Filters(Only(t))));
    var k := TypeIndex(t);
    assert forall m :: 0 <= m < |all| ==> (keep(all[m]) <==> m % 5 == k) by {
      forall m | 0 <= m < |all|
        ensures keep(all[m]) <==> m % 5 == k
      {
        assert all[m].kind == Types[m % 5];
      }
    }
    EveryFifthPositions(Kept(all, keep, 0), 4 * limit, k);
  }

  /**
   * Increasing positions below `n` that are exactly those congruent to `k`
   * modulo 5 are `k, k + 5, k + 10, ...`, `(n + 4 - k) / 5` of them.
   */
  lemma EveryFifthPositions(pos: seq<nat>, n: nat, k: nat)
    requires k < 5 && Increasing(pos)
    requires forall i :: 0 <= i < |pos| ==> pos[i] < n && pos[i] % 5 == k
    requires forall m :: 0 <= m < n && m % 5 == k ==> m in pos
    ensures |pos| == (n + 4 - k) / 5
    ensures forall j :: 0 <= j < |pos| ==> pos[j] == 5 * j + k
  {
    EveryFifthLength(pos, n, k);
    forall j | 0 <= j < |pos|
      ensures pos[j] == 5 * j + k
    {
      EveryFifthAt(pos, n, k, j);
    }
  }

  // Worked examples

  /** The first page of an unfiltered listing is asset-1 .. asset-50, continued at 50. */
  lemma FirstPageExample(random: nat -> real)
    ensures var r := Fetch(None, 50, None, Some(Filters(All)), false, random);
      && r.Success?
      && |r.value.data| == 50
      && (forall j :: 0 <= j < 50 ==> r.value.data[j].id == "asset-" + NatToString(j + 1))
      && r.value.nextCursor == Some(50)
  {
    UnfilteredPage(0, 50, None, Some(Filters(All)), random);
  }

  /** The page at cursor 999,950 of size 50 reaches the cap and carries no next cursor. */
  lemma LastPageExample(search: Option<string>, filters: Option<Filters>, random: nat -> real)
    ensures var r := Fetch(Some(999_950), 50, search, filters, false, random);
      r.Success? && r.value.nextCursor == None
  {
  }

  /** A crypto-only page of size 10 holds 8 assets, all of them crypto. */
  lemma CryptoPageExample(random: nat -> real)
    ensures var r := Fetch(Some(0), 10, None, Some(Filters(Only(Crypto))), false, random);
      && r.Success?
      && |r.value.data| == 8
      && (forall j :: 0 <= j < 8 ==> r.value.data[j].kind == Crypto)
  {
    TypeFilteredPage(0, 10, None, Crypto, random);
  }

  /**
   * Consecutive pages overlap under a category filter: asset-53 is the 11th
   * crypto asset of the page at cursor 0 and the first of the page at 50.
   */
  lemma OverlappingPagesExample(random: nat -> real)
    ensures var p0 := Respond(0, 50, None, Some(Filters(Only(Crypto))), random).data;
      var p1 := Respond(50, 50, None, Some(Filters(Only(Crypto))), random).data;
      && |p0| == 40 && |p1| == 40
      && p0[10].id == p1[0].id == "asset-" + NatToString(53)
  {
    TypeFilteredPage(0, 50, None, Crypto, random);
    TypeFilteredPage(50, 50, None, Crypto, random);
  }

  /**
   * The same id can carry different names: asset-51 is "HDFC Bank" at batch
   * position 50 of the page at cursor 0 and "Reliance Ind" at position 0 of
   * the page at cursor 50.
   */
  lemma SameIdDifferentNameExample(random: nat -> real)
    ensures GetAsset(50, 0, random).id == GetAsset(0, 50, random).id == "asset-51"
    ensures GetAsset(50, 0, random).name == "Asset 51: HDFC Bank"
    ensures GetAsset(0, 50, random).name == "Asset 51: Reliance Ind"
    ensures GetAsset(50, 0, random).name != GetAsset(0, 50, random).name
  {
    AssetFiftyOne(50, 0, random);
    AssetFiftyOne(0, 50, random);
    assert |"Asset 51: HDFC Bank"| != |"Asset 51: Reliance Ind"|;
  }

  /** The asset numbered 51, at position `index` of the batch after `cursor`. */
  lemma AssetFiftyOne(index: nat, cursor: nat, random: nat -> real)
    requires index + cursor == 50 && (index == 0 || index == 50)
    ensures GetAsset(index, cursor, random).id == "asset-51"
    ensures GetAsset(index, cursor, random).name
         == if index == 50 then "Asset 51: HDFC Bank" else "Asset 51: Reliance Ind"
  {
    var suffix := if index == 50 then "HDFC Bank" else "Reliance Ind";
    assert GetAsset(index, cursor, random).id == "asset-" + "51"
        && GetAsset(index, cursor, random).name == "Asset " + "51" + ": " + suffix by {
      assert NatToString(index + 1 + cursor) == "51" by {
        assert NatToString(51) == "51";
      }
      assert Types[index % |Types|] == Stock;
      assert |Names(Stock)| == 6;
      assert Names(Stock)[index % 6] == suffix;
    }
    FiftyOneLabels();
  }

  /** The literals the asset numbered 51 is spelled with. */
  lemma FiftyOneLabels()
    ensures "asset-" + "51" == "asset-51"
    ensures "Asset " + "51" + ": " + "HDFC Bank" == "Asset 51: HDFC Bank"
    ensures "Asset " + "51" + ": " + "Reliance Ind" == "Asset 51: Reliance Ind"
  {
  }
}
