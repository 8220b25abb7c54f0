/** The admin product filter form (`AdminProductFilters`): seven filter
    values mirrored between component state and the query string.
 */
module ProductFilters {
  import opened QueryParams
  import opened FilterSync
  import ProductFilterFields

  /** The form state; every value is a string, "" meaning "All". */
  datatype Filters = Filters(
    productType: string,
    subType: string,
    brand: string,
    isRGB: string,
    isWireless: string,
    minPrice: string,
    maxPrice: string)

  /** `Object.entries(filters)`, in the order the state object declares its
      fields. */
  function Entries(f: Filters): seq<Entry> {
    [("type", f.productType), ("subType", f.subType), ("brand", f.brand),
     ("isRGB", f.isRGB), ("isWireless", f.isWireless),
     ("minPrice", f.minPrice), ("maxPrice", f.maxPrice)]
  }

  const FilterKeys: set<string> :=
    {"type", "subType", "brand", "isRGB", "isWireless", "minPrice", "maxPrice"}

  lemma EntriesShape(f: Filters)
    ensures |Entries(f)| == 7
    ensures DistinctKeys(Entries(f))
    ensures KeySet(Entries(f)) == FilterKeys
  {
    var es := Entries(f);
    assert es[0].0 == "type" && es[1].0 == "subType" && es[2].0 == "brand";
    assert es[3].0 == "isRGB" && es[4].0 == "isWireless";
    assert es[5].0 == "minPrice" && es[6].0 == "maxPrice";
  }

  /** The state read from the query string, on mount and on every URL
      change: each value is the first param of its key, or "" when the key
      is absent. */
  function Read(ps: Params): (r: Filters)
    ensures forall e :: e in Entries(r) ==> e.1 == Field(ps, e.0)
    ensures forall e :: e in Entries(r) && !Has(ps, e.0) ==> e.1 == ""
  {
    Filters(Field(ps, "type"), Field(ps, "subType"), Field(ps, "brand"),
            Field(ps, "isRGB"), Field(ps, "isWireless"),
            Field(ps, "minPrice"), Field(ps, "maxPrice"))
  }

  /** `updateURL(filters)`, taken as immediate: each non-empty value is in
      the params exactly once, each empty one is absent, and every pair
      under another key is kept in order. */
  function UpdateUrl(ps: Params, f: Filters): (r: Params)
    ensures Agrees(r, Entries(f))
    ensures Without(r, FilterKeys) == Without(ps, FilterKeys)
  {
    EntriesShape(f);
    ApplyAgrees(ps, Entries(f));
    ApplyKeepsOthers(ps, Entries(f), FilterKeys);
    ApplyEntries(ps, Entries(f))
  }

  /** Choosing a type resets the sub-type and leaves the rest alone. */
  function ChangeType(f: Filters, t: string): (r: Filters)
    ensures r.productType == t && r.subType == ""
    ensures r.brand == f.brand && r.isRGB == f.isRGB && r.isWireless == f.isWireless
    ensures r.minPrice == f.minPrice && r.maxPrice == f.maxPrice
  {
    f.(productType := t, subType := "")
  }

  /** Writing the state into the URL and reading it back gives the same
      state. */
  lemma RoundTrip(ps: Params, f: Filters)
    ensures Read(UpdateUrl(ps, f)) == f
  {
    var q := UpdateUrl(ps, f);
    var es := Entries(f);
    EntriesShape(f);
    ReadBack(ps, es, 0);
    ReadBack(ps, es, 1);
    ReadBack(ps, es, 2);
    ReadBack(ps, es, 3);
    ReadBack(ps, es, 4);
    ReadBack(ps, es, 5);
    ReadBack(ps, es, 6);
  }

  /** `updateURL` applied to its own output changes nothing. */
  lemma UpdateIdempotent(ps: Params, f: Filters)
    ensures UpdateUrl(UpdateUrl(ps, f), f) == UpdateUrl(ps, f)
  {
    EntriesShape(f);
    ApplyIdempotent(ps, Entries(f));
  }

  /** The two effects settle: after the URL is rewritten from the state read
      off it, reading again gives the same state and writing again gives the
      same URL, so the navigation does not repeat. */
  lemma SyncSettles(ps: Params)
    ensures Read(UpdateUrl(ps, Read(ps))) == Read(ps)
    ensures UpdateUrl(UpdateUrl(ps, Read(ps)), Read(UpdateUrl(ps, Read(ps)))) == UpdateUrl(ps, Read(ps))
  {
    RoundTrip(ps, Read(ps));
    UpdateIdempotent(ps, Read(ps));
  }

  /** The form manages exactly the keys the filter chips list. */
  lemma KeysMatchChipKeys(f: Filters)
    ensures KeySet(Entries(f)) == set k | k in ProductFilterFields.Keys
  {
    EntriesShape(f);
  }
}
