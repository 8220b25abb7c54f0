/** The admin auction filter form (`AdminAuctionFilters`): fourteen filter
    values mirrored between component state and the query string.
 */
module AuctionFilters {
  import opened Wrappers
  import opened QueryParams
  import opened FilterSync

  /** The form state; every value is a string, "" meaning "All" or unset.
      Dates are kept as the strings the inputs produce. */
  datatype Filters = Filters(
    brand: string,
    productType: string,
    subType: string,
    isWireless: string,
    isRGB: string,
    auctionStatus: string,
    minStartPrice: string,
    maxStartPrice: string,
    minBuyOutPrice: string,
    maxBuyOutPrice: string,
    startDateFrom: string,
    startDateTo: string,
    endDateFrom: string,
    endDateTo: string)

  /** The query-string keys, in the order the state object declares them. */
  const Keys: seq<string> := [
    "brand", "type", "subType", "isWireless", "isRGB", "auctionStatus",
    "minStartPrice", "maxStartPrice", "minBuyOutPrice", "maxBuyOutPrice",
    "startDateFrom", "startDateTo", "endDateFrom", "endDateTo"
  ]

  function FieldValues(f: Filters): seq<string> {
    [f.brand, f.productType, f.subType, f.isWireless, f.isRGB, f.auctionStatus,
     f.minStartPrice, f.maxStartPrice, f.minBuyOutPrice, f.maxBuyOutPrice,
     f.startDateFrom, f.startDateTo, f.endDateFrom, f.endDateTo]
  }

  /** `Object.entries(filters)`. */
  function Entries(f: Filters): (es: seq<Entry>)
    ensures |es| == |Keys|
    ensures forall i :: 0 <= i < |es| ==> es[i] == (Keys[i], FieldValues(f)[i])
  {
    seq(|Keys|, i requires 0 <= i < |Keys| => (Keys[i], FieldValues(f)[i]))
  }

  const FilterKeys: set<string> := set k | k in Keys

  lemma KeysDistinct()
    ensures |Keys| == 14
    ensures forall i, j :: 0 <= i < j < |Keys| ==> Keys[i] != Keys[j]
  {
  }

  lemma EntriesShape(f: Filters)
    ensures DistinctKeys(Entries(f))
    ensures KeySet(Entries(f)) == FilterKeys
  {
    KeysDistinct();
    var es := Entries(f);
    forall k | k in FilterKeys ensures k in KeySet(es) {
      var i :| 0 <= i < |Keys| && Keys[i] == k;
      assert es[i].0 == k;
    }
  }

  /** The state read from the query string: each of the fourteen values is
      the first param of its key, or "" when the key is absent. */
  function Read(ps: Params): (r: Filters)
    ensures forall i :: 0 <= i < |Keys| ==> FieldValues(r)[i] == Field(ps, Keys[i])
    ensures forall i :: 0 <= i < |Keys| && !Has(ps, Keys[i]) ==> FieldValues(r)[i] == ""
  {
    Filters(
      Field(ps, "brand"), Field(ps, "type"), Field(ps, "subType"),
      Field(ps, "isWireless"), Field(ps, "isRGB"), Field(ps, "auctionStatus"),
      Field(ps, "minStartPrice"), Field(ps, "maxStartPrice"),
      Field(ps, "minBuyOutPrice"), Field(ps, "maxBuyOutPrice"),
      Field(ps, "startDateFrom"), Field(ps, "startDateTo"),
      Field(ps, "endDateFrom"), Field(ps, "endDateTo"))
  }

  /** `updateURL(filters)`, taken as immediate: non-empty values are set,
      empty ones deleted, and pairs under other keys kept in order. */
  function UpdateUrl(ps: Params, f: Filters): (r: Params)
    ensures Agrees(r, Entries(f))
    ensures Without(r, FilterKeys) == Without(ps, FilterKeys)
  {
    EntriesShape(f);
    ApplyAgrees(ps, Entries(f));
    ApplyKeepsOthers(ps, Entries(f), FilterKeys);
    ApplyEntries(ps, Entries(f))
  }

  /** Choosing a type resets the sub-type and leaves the rest alone. */
  function ChangeType(f: Filters, t: string): (r: Filters)
    ensures r.productType == t && r.subType == ""
    ensures forall i :: 0 <= i < |Keys| && i != 1 && i != 2 ==> FieldValues(r)[i] == FieldValues(f)[i]
  {
    f.(productType := t, subType := "")
  }

  /** The "Start Date From" picker: a picked date is stored as its ISO
      string (`iso`, computed outside the model); clearing the picker stores
      "". No other value changes. */
  function PickStartDateFrom(f: Filters, picked: Option<string>): (r: Filters)
    ensures picked.None? ==> r.startDateFrom == ""
    ensures picked.Some? ==> r.startDateFrom == picked.value
    ensures forall i :: 0 <= i < |Keys| && i != 10 ==> FieldValues(r)[i] == FieldValues(f)[i]
  {
    f.(startDateFrom := if picked.Some? then picked.value else "")
  }

  /** Writing the state into the URL and reading it back gives the same
      state. */
  lemma RoundTrip(ps: Params, f: Filters)
    ensures Read(UpdateUrl(ps, f)) == f
  {
    var q := UpdateUrl(ps, f);
    EntriesShape(f);
    forall i | 0 <= i < |Keys| ensures FieldValues(Read(q))[i] == FieldValues(f)[i] {
      ReadBack(ps, Entries(f), i);
    }
    assert FieldValues(Read(q)) == FieldValues(f);
  }

  /** `updateURL` applied to its own output changes nothing. */
  lemma UpdateIdempotent(ps: Params, f: Filters)
    ensures UpdateUrl(UpdateUrl(ps, f), f) == UpdateUrl(ps, f)
  {
    EntriesShape(f);
    ApplyIdempotent(ps, Entries(f));
  }

  /** The two effects settle after one rewrite of the URL. */
  lemma SyncSettles(ps: Params)
    ensures Read(UpdateUrl(ps, Read(ps))) == Read(ps)
    ensures UpdateUrl(UpdateUrl(ps, Read(ps)), Read(UpdateUrl(ps, Read(ps)))) == UpdateUrl(ps, Read(ps))
  {
    RoundTrip(ps, Read(ps));
    UpdateIdempotent(ps, Read(ps));
  }
}
