/** Listing metadata and the survivorship filter shared by the strategies. */
module Survivorship {
  import opened Wrappers

  datatype Instrument = Instrument(sector: string, lotSize: int, isActive: bool, listing: Option<int>,
                                   delisting: Option<int>)

  // Symbols without metadata count as tradable.
  predicate Tradable(meta: map<string, Instrument>, symbol: string, asOf: int) {
    symbol in meta ==>
      && meta[symbol].isActive
      && (meta[symbol].listing.Some? ==> meta[symbol].listing.value <= asOf)
      && (meta[symbol].delisting.Some? ==> asOf <= meta[symbol].delisting.value)
  }
}
