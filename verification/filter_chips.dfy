/** The filter chip bars above the admin product and auction tables
    (`AdminProductFilterChips`, `AdminAuctionFilterChips`): one removable
    chip per active filter in the query string, plus "Clear all".
 */
module FilterChips {
  import opened Wrappers
  import opened QueryParams
  import ProductFilterFields
  import AuctionFilters

  /** Where a chip button sends the router: `router.push('?' + params)`
      keeps the current path and replaces the query; `router.push(path)`
      goes to a path with no query at all. */
  datatype Navigation = Query(params: Params) | Path(path: string)

  /** A key counts as active when `searchParams.get(key)` is truthy. */
  predicate IsActive(ps: Params, k: string) {
    Get(ps, k).Some? && Get(ps, k).value != ""
  }

  /** `keys.map(key => ({ key, value: searchParams.get(key) })).filter(f => f.value)`:
      the active keys, each with its first value, in key order. */
  function ActiveFilters(keys: seq<string>, ps: Params): (r: seq<Pair>)
    ensures forall p :: p in r ==> p.0 in keys && IsActive(ps, p.0) && p.1 == Get(ps, p.0).value
    ensures forall k :: k in keys && IsActive(ps, k) ==> (k, Get(ps, k).value) in r
    ensures |r| <= |keys|
  {
    if keys == [] then []
    else
      var k := keys[0];
      (if IsActive(ps, k) then [(k, Get(ps, k).value)] else []) + ActiveFilters(keys[1..], ps)
  }

  /** Chips appear in the order of the key list: the active filters of a
      concatenation of key lists are those of each part, in turn. */
  lemma {:induction false} ActiveFiltersInKeyOrder(a: seq<string>, b: seq<string>, ps: Params)
    ensures ActiveFilters(a + b, ps) == ActiveFilters(a, ps) + ActiveFilters(b, ps)
    decreases |a|
  {
    if a == [] {
      assert a + b == b;
    } else {
      assert (a + b)[1..] == a[1..] + b;
      ActiveFiltersInKeyOrder(a[1..], b, ps);
    }
  }

  /** The chip bar renders nothing exactly when no key is active. */
  lemma NothingRenderedWhenInactive(keys: seq<string>, ps: Params)
    ensures ActiveFilters(keys, ps) == [] <==> forall k :: k in keys ==> !IsActive(ps, k)
  {
    if ActiveFilters(keys, ps) != [] {
      var p := ActiveFilters(keys, ps)[0];
      assert p in ActiveFilters(keys, ps);
    }
  }

  /** `clearFilter(key)`: every pair named `key` goes; every other pair
      stays, in order, and the path is kept. */
  function ClearFilter(ps: Params, key: string): (r: Navigation)
    ensures r.Query?
    ensures Values(r.params, key) == []
    ensures Without(r.params, {key}) == Without(ps, {key})
  {
    assert {key} + {key} == {key};
    WithoutWithout(ps, {key}, {key});
    Query(Delete(ps, key))
  }

  /** Deleting each of `keys` in turn, as `clearAll` computes before it
      discards the result. */
  function DeleteEach(ps: Params, keys: seq<string>): (r: Params)
    ensures forall k :: k in keys ==> Values(r, k) == []
    ensures forall k :: k !in keys ==> Values(r, k) == Values(ps, k)
    ensures Without(r, set k | k in keys) == Without(ps, set k | k in keys)
    decreases |keys|
  {
    if keys == [] then ps
    else
      var rest := DeleteEach(Delete(ps, keys[0]), keys[1..]);
      assert (set k | k in keys[1..]) + {keys[0]} == set k | k in keys;
      WithoutWithout(rest, set k | k in keys[1..], {keys[0]});
      WithoutWithout(Delete(ps, keys[0]), set k | k in keys[1..], {keys[0]});
      DeleteKeepsOthers(ps, keys[0], set k | k in keys);
      rest
  }

  /** How a product chip shows its value. `numeric` stands for
      `!isNaN(Number(value))`; the currency formatting itself is not
      modelled. */
  datatype ChipValue = Yes | No | Currency(raw: string) | Raw(raw: string)

  function DisplayValue(v: string, numeric: bool): (r: ChipValue)
    ensures v == "true" <==> r == Yes
    ensures v == "false" <==> r == No
    ensures r.Currency? <==> v != "true" && v != "false" && numeric
    ensures r.Raw? ==> r.raw == v
    ensures r.Currency? ==> r.raw == v
  {
    if v == "true" then Yes
    else if v == "false" then No
    else if numeric then Currency(v)
    else Raw(v)
  }

  /** `labelMap[key] || key`. */
  function Label(key: string): (r: string)
    ensures key in ProductFilterFields.Labels && ProductFilterFields.Labels[key] != "" ==> r == ProductFilterFields.Labels[key]
    ensures key !in ProductFilterFields.Labels ==> r == key
    ensures r != "" || key == ""
  {
    if key in ProductFilterFields.Labels && ProductFilterFields.Labels[key] != ""
    then ProductFilterFields.Labels[key] else key
  }

  datatype Chip = Chip(key: string, caption: string, value: ChipValue)

  /** The product chip bar: `None` when there is nothing to show (the
      component returns null), else one chip per active filter. */
  function ProductChips(ps: Params, numeric: string -> bool): (r: Option<seq<Chip>>)
    ensures r.None? <==> forall k :: k in ProductFilterFields.Keys ==> !IsActive(ps, k)
    ensures r.Some? ==> |r.value| == |ActiveFilters(ProductFilterFields.Keys, ps)|
    ensures r.Some? ==> forall i :: 0 <= i < |r.value| ==>
      r.value[i].key == ActiveFilters(ProductFilterFields.Keys, ps)[i].0 &&
      r.value[i].caption == Label(r.value[i].key) &&
      r.value[i].value == DisplayValue(ActiveFilters(ProductFilterFields.Keys, ps)[i].1,
                                       numeric(ActiveFilters(ProductFilterFields.Keys, ps)[i].1))
  {
    var active := ActiveFilters(ProductFilterFields.Keys, ps);
    NothingRenderedWhenInactive(ProductFilterFields.Keys, ps);
    if active == [] then None
    else Some(seq(|active|, i requires 0 <= i < |active| =>
      Chip(active[i].0, Label(active[i].0), DisplayValue(active[i].1, numeric(active[i].1)))))
  }

  /** The product "Clear all": navigate to the bare products path. */
  function ClearAllProducts(ps: Params): (r: Navigation)
    ensures r.Path? && r.path == "/admin/products"
  {
    var computed := DeleteEach(ps, ProductFilterFields.Keys);
    Path("/admin/products")
  }

  /** "Clear all" drops even the params no chip manages (a page number, say),
      although the params it computes first would have kept them. */
  lemma ClearAllDropsUnmanagedParams(ps: Params)
    requires Without(ps, set k | k in ProductFilterFields.Keys) != []
    ensures DeleteEach(ps, ProductFilterFields.Keys) != []
    ensures ClearAllProducts(ps) == Path("/admin/products")
  {
  }

  /** The keys of the auction chip bar. */
  const AuctionChipKeys: seq<string> := [
    "brand", "type", "subType", "isWireless", "isRGB", "auctionStatus",
    "minStartPrice", "maxStartPrice", "minBuyOutPrice", "maxBuyOutPrice",
    "startDateFrom", "startDateTo", "endDateFrom", "endDateTo"
  ]

  /** The auction chips cover exactly the keys the auction filter form
      writes, in the same order. */
  lemma AuctionChipKeysMatchForm()
    ensures AuctionChipKeys == AuctionFilters.Keys
  {
  }

  /** The auction chip bar: `None` when nothing is active, else the active
      `key: value` pairs shown raw. */
  function AuctionChips(ps: Params): (r: Option<seq<Pair>>)
    ensures r.None? <==> forall k :: k in AuctionChipKeys ==> !IsActive(ps, k)
    ensures r.Some? ==> r.value == ActiveFilters(AuctionChipKeys, ps) && r.value != []
  {
    NothingRenderedWhenInactive(AuctionChipKeys, ps);
    var active := ActiveFilters(AuctionChipKeys, ps);
    if active == [] then None else Some(active)
  }

  /** The auction "Clear all": navigate to the bare auctions path. */
  function ClearAllAuctions(): (r: Navigation)
    ensures r.Path? && r.path == "/admin/auctions"
  {
    Path("/admin/auctions")
  }
}
