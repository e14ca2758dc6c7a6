/** The asset record and the filter value the views pass around. */
module Assets {
  import opened Wrappers

  /** The closed set of asset categories. */
  datatype AssetType = Stock | Bond | Crypto | RealEstate | Commodity

  /** The `type` of an `AssetFilters` value: one category, or every category. */
  datatype TypeFilter = All | Only(only: AssetType)

  /** `AssetFilters`: the filter the user commits through the drawer. */
  datatype Filters = Filters(kind: TypeFilter)

  /** One asset row; the numbers are exact reals rather than JavaScript doubles. */
  datatype Asset = Asset(
    id: string,
    name: string,
    ticker: string,
    kind: AssetType,
    value: real,
    price: real,
    quantity: real,
    change24h: real,
    updatedAt: Option<string>)
}
