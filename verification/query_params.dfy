/** The browser's `URLSearchParams`, as the list of name-value pairs that
    section 6.2 of the WHATWG URL Standard defines it to be.

    - `get(name)` returns the value of the first pair with that name;
    - `set(name, value)` overwrites the value of the first such pair and
      removes the others, or appends the pair when there is none;
    - `delete(name)` removes every pair with that name;
    - `new URLSearchParams(other)` copies the list, so in this value model
      a copy is the same sequence.

    Serialisation to `application/x-www-form-urlencoded` (`toString`) is not
    modelled: the model keeps the list itself.
 */
module QueryParams {
  import opened Wrappers

  type Pair = (string, string)
  type Params = seq<Pair>

  /** `getAll(k)`: the values of every pair named `k`, in list order. */
  function Values(ps: Params, k: string): seq<string>
  {
    if ps == [] then []
    else (if ps[0].0 == k then [ps[0].1] else []) + Values(ps[1..], k)
  }

  /** `has(k)`. */
  predicate Has(ps: Params, k: string) {
    Values(ps, k) != []
  }

  /** The pairs whose name is not in `ks`, in their original order. */
  function Without(ps: Params, ks: set<string>): Params
  {
    if ps == [] then []
    else (if ps[0].0 in ks then [] else [ps[0]]) + Without(ps[1..], ks)
  }

  /** `get(k)`: the first value named `k`, or `None` (JavaScript's null). */
  function Get(ps: Params, k: string): (r: Option<string>)
    ensures r == (if Values(ps, k) == [] then None else Some(Values(ps, k)[0]))
  {
    if ps == [] then None
    else if ps[0].0 == k then Some(ps[0].1)
    else Get(ps[1..], k)
  }

  /** `delete(k)`: every pair named `k` is removed; the other pairs stay,
      in their order. */
  function Delete(ps: Params, k: string): (r: Params)
    ensures Values(r, k) == []
    ensures forall k' :: k' != k ==> Values(r, k') == Values(ps, k')
    ensures r == Without(ps, {k})
    ensures |r| <= |ps|
  {
    if ps == [] then []
    else if ps[0].0 == k then Delete(ps[1..], k)
    else [ps[0]] + Delete(ps[1..], k)
  }

  /** The position of the first pair named `k`. */
  function FirstIndex(ps: Params, k: string): (i: nat)
    requires Has(ps, k)
    ensures i < |ps| && ps[i].0 == k
    ensures forall j :: 0 <= j < i ==> ps[j].0 != k
  {
    if ps[0].0 == k then 0 else 1 + FirstIndex(ps[1..], k)
  }

  /** The first pair named `k` gets value `v` in its place; later pairs
      named `k` go. */
  function SetFirst(ps: Params, k: string, v: string): (r: Params)
    requires Has(ps, k)
    ensures Values(r, k) == [v]
    ensures forall k' :: k' != k ==> Values(r, k') == Values(ps, k')
    ensures Without(r, {k}) == Without(ps, {k})
    ensures |r| <= |ps|
  {
    var i := FirstIndex(ps, k);
    var before, after := ps[..i], ps[i + 1..];
    assert ps == before + [ps[i]] + after;
    var rest := Delete(after, k);
    NoMatchBefore(before, k);
    ValuesAppend(before + [(k, v)], rest, k);
    ValuesAppend(before, [(k, v)], k);
    forall k' | k' != k ensures Values(before + [(k, v)] + rest, k') == Values(ps, k') {
      ValuesAppend(before + [(k, v)], rest, k');
      ValuesAppend(before, [(k, v)], k');
      ValuesAppend(before + [ps[i]], after, k');
      ValuesAppend(before, [ps[i]], k');
    }
    WithoutAppend(before + [(k, v)], rest, {k});
    WithoutAppend(before, [(k, v)], {k});
    WithoutAppend(before + [ps[i]], after, {k});
    WithoutAppend(before, [ps[i]], {k});
    assert {k} + {k} == {k};
    WithoutWithout(after, {k}, {k});
    before + [(k, v)] + rest
  }

  /** A list with no pair named `k` has no value under `k` and loses
      nothing when `k` is removed. */
  lemma {:induction false} NoMatchBefore(ps: Params, k: string)
    requires forall j :: 0 <= j < |ps| ==> ps[j].0 != k
    ensures Values(ps, k) == [] && Without(ps, {k}) == ps
    decreases |ps|
  {
    if ps != [] {
      NoMatchBefore(ps[1..], k);
      assert ps == [ps[0]] + ps[1..];
    }
  }

  /** `set(k, v)`: afterwards exactly one pair is named `k` and it holds
      `v`; the pairs with other names are untouched and keep their order. */
  function Set(ps: Params, k: string, v: string): (r: Params)
    ensures Values(r, k) == [v]
    ensures forall k' :: k' != k ==> Values(r, k') == Values(ps, k')
    ensures Without(r, {k}) == Without(ps, {k})
    ensures !Has(ps, k) ==> r == ps + [(k, v)]
    ensures Has(ps, k) ==>
      var i := FirstIndex(ps, k); r == ps[..i] + [(k, v)] + Delete(ps[i + 1..], k)
  {
    if Has(ps, k) then SetFirst(ps, k, v)
    else
      ValuesAppend(ps, [(k, v)], k);
      forall k' | k' != k ensures Values(ps + [(k, v)], k') == Values(ps, k') {
        ValuesAppend(ps, [(k, v)], k');
      }
      WithoutAppend(ps, [(k, v)], {k});
      ps + [(k, v)]
  }

  lemma {:induction false} ValuesAppend(a: Params, b: Params, k: string)
    ensures Values(a + b, k) == Values(a, k) + Values(b, k)
    decreases |a|
  {
    if a == [] {
      assert a + b == b;
    } else {
      assert (a + b)[1..] == a[1..] + b;
      ValuesAppend(a[1..], b, k);
    }
  }

  lemma {:induction false} WithoutAppend(a: Params, b: Params, ks: set<string>)
    ensures Without(a + b, ks) == Without(a, ks) + Without(b, ks)
    decreases |a|
  {
    if a == [] {
      assert a + b == b;
    } else {
      assert (a + b)[1..] == a[1..] + b;
      WithoutAppend(a[1..], b, ks);
    }
  }

  /** Removing the names in `a`, then those in `b`, removes the names in
      either. */
  lemma {:induction false} WithoutWithout(ps: Params, a: set<string>, b: set<string>)
    ensures Without(Without(ps, a), b) == Without(ps, a + b)
    decreases |ps|
  {
    if ps != [] {
      WithoutWithout(ps[1..], a, b);
      var head := if ps[0].0 in a then [] else [ps[0]];
      WithoutAppend(head, Without(ps[1..], a), b);
    }
  }

  /** `set(k, v)` keeps every pair whose name lies outside a name set `ks`
      containing `k`, in order. */
  lemma SetKeepsOthers(ps: Params, k: string, v: string, ks: set<string>)
    requires k in ks
    ensures Without(Set(ps, k, v), ks) == Without(ps, ks)
  {
    assert {k} + ks == ks;
    WithoutWithout(Set(ps, k, v), {k}, ks);
    WithoutWithout(ps, {k}, ks);
  }

  /** `delete(k)` keeps every pair whose name lies outside a name set `ks`
      containing `k`, in order. */
  lemma DeleteKeepsOthers(ps: Params, k: string, ks: set<string>)
    requires k in ks
    ensures Without(Delete(ps, k), ks) == Without(ps, ks)
  {
    assert {k} + ks == ks;
    WithoutWithout(ps, {k}, ks);
  }

  /** `set` is a no-op when `k` already names exactly one pair holding `v`. */
  lemma {:induction false} SetNoop(ps: Params, k: string, v: string)
    requires Values(ps, k) == [v]
    ensures Set(ps, k, v) == ps
    decreases |ps|
  {
    if ps[0].0 == k {
      assert Values(ps, k) == [ps[0].1] + Values(ps[1..], k);
      assert Values(ps[1..], k) == [];
      assert ps[0].1 == Values(ps, k)[0] == v;
      DeleteNoop(ps[1..], k);
      assert ps == [(k, v)] + ps[1..];
    } else {
      SetNoop(ps[1..], k, v);
    }
  }

  /** `delete` is a no-op when no pair is named `k`. */
  lemma {:induction false} DeleteNoop(ps: Params, k: string)
    requires Values(ps, k) == []
    ensures Delete(ps, k) == ps
    decreases |ps|
  {
    if ps != [] {
      DeleteNoop(ps[1..], k);
    }
  }
}
