/** The rule both admin filter forms use to write their state into the
    query string (`updateURL`): for each `[key, value]` of
    `Object.entries(filters)`, in order, a non-empty value is `set` and an
    empty one is `delete`d; every other pair of the current params is kept.
    The debounce around it is not modelled: the update is immediate.
 */
module FilterSync {
  import opened Wrappers
  import opened QueryParams

  /** One `[key, value]` of `Object.entries(filters)`. */
  type Entry = (string, string)

  /** The values a filter entry leaves under its key: its value when the
      value is truthy (non-empty), nothing otherwise. */
  function Expected(v: string): seq<string> {
    if v != "" then [v] else []
  }

  /** The body of the `forEach`: `if (value) params.set(key, value) else
      params.delete(key)`. */
  function Step(ps: Params, e: Entry): (r: Params)
    ensures Values(r, e.0) == Expected(e.1)
    ensures forall k :: k != e.0 ==> Values(r, k) == Values(ps, k)
  {
    if e.1 != "" then Set(ps, e.0, e.1) else Delete(ps, e.0)
  }

  /** The whole `forEach` over the entries, in order. */
  function ApplyEntries(ps: Params, es: seq<Entry>): Params
    decreases |es|
  {
    if es == [] then ps else ApplyEntries(Step(ps, es[0]), es[1..])
  }

  function KeySet(es: seq<Entry>): set<string> {
    set i | 0 <= i < |es| :: es[i].0
  }

  /** No key occurs twice: true of every `Object.entries` result. */
  predicate DistinctKeys(es: seq<Entry>) {
    forall i, j :: 0 <= i < j < |es| ==> es[i].0 != es[j].0
  }

  /** The params already say what the entries say. */
  predicate Agrees(ps: Params, es: seq<Entry>) {
    forall i :: 0 <= i < |es| ==> Values(ps, es[i].0) == Expected(es[i].1)
  }

  /** `searchParams.get(k) ?? ''`: how the forms read a filter back. */
  function Field(ps: Params, k: string): (r: string)
    ensures Values(ps, k) == [] ==> r == ""
    ensures Values(ps, k) != [] ==> r == Values(ps, k)[0]
  {
    Get(ps, k).GetOr("")
  }

  /** Entries for other keys do not touch the values of `k`. */
  lemma {:induction false} ApplyOtherKey(ps: Params, es: seq<Entry>, k: string)
    requires forall i :: 0 <= i < |es| ==> es[i].0 != k
    ensures Values(ApplyEntries(ps, es), k) == Values(ps, k)
    decreases |es|
  {
    if es != [] {
      ApplyOtherKey(Step(ps, es[0]), es[1..], k);
    }
  }

  /** After the update, each key holds exactly its entry's value when that
      value is non-empty, and is absent when it is empty. */
  lemma {:induction false} ApplyAgrees(ps: Params, es: seq<Entry>)
    requires DistinctKeys(es)
    ensures Agrees(ApplyEntries(ps, es), es)
    decreases |es|
  {
    if es != [] {
      var mid := Step(ps, es[0]);
      var rest := es[1..];
      ApplyAgrees(mid, rest);
      ApplyOtherKey(mid, rest, es[0].0);
      forall i | 0 <= i < |es|
        ensures Values(ApplyEntries(ps, es), es[i].0) == Expected(es[i].1)
      {
        if i > 0 {
          assert es[i] == rest[i - 1];
        }
      }
    }
  }

  /** Pairs whose key lies outside a set `ks` covering the entries' keys
      survive the update unchanged and in order. */
  lemma {:induction false} ApplyKeepsOthers(ps: Params, es: seq<Entry>, ks: set<string>)
    requires KeySet(es) <= ks
    ensures Without(ApplyEntries(ps, es), ks) == Without(ps, ks)
    decreases |es|
  {
    if es != [] {
      assert es[0].0 in KeySet(es);
      var mid := Step(ps, es[0]);
      if es[0].1 != "" {
        SetKeepsOthers(ps, es[0].0, es[0].1, ks);
      } else {
        DeleteKeepsOthers(ps, es[0].0, ks);
      }
      assert KeySet(es[1..]) <= KeySet(es) by {
        forall k | k in KeySet(es[1..]) ensures k in KeySet(es) {
          var i :| 0 <= i < |es[1..]| && es[1..][i].0 == k;
          assert es[i + 1].0 == k;
        }
      }
      ApplyKeepsOthers(mid, es[1..], ks);
    }
  }

  /** Params that already agree with the entries are left exactly as they
      are. */
  lemma {:induction false} ApplyNoop(ps: Params, es: seq<Entry>)
    requires Agrees(ps, es)
    ensures ApplyEntries(ps, es) == ps
    decreases |es|
  {
    if es != [] {
      assert Values(ps, es[0].0) == Expected(es[0].1);
      if es[0].1 != "" {
        SetNoop(ps, es[0].0, es[0].1);
      } else {
        DeleteNoop(ps, es[0].0);
      }
      assert Agrees(ps, es[1..]) by {
        forall i | 0 <= i < |es[1..]|
          ensures Values(ps, es[1..][i].0) == Expected(es[1..][i].1)
        {
          assert es[1..][i] == es[i + 1];
        }
      }
      ApplyNoop(ps, es[1..]);
    }
  }

  /** Applying the same update to its own output changes nothing. */
  lemma ApplyIdempotent(ps: Params, es: seq<Entry>)
    requires DistinctKeys(es)
    ensures ApplyEntries(ApplyEntries(ps, es), es) == ApplyEntries(ps, es)
  {
    ApplyAgrees(ps, es);
    ApplyNoop(ApplyEntries(ps, es), es);
  }

  /** Reading a key back after the update gives its entry's value. */
  lemma ReadBack(ps: Params, es: seq<Entry>, i: nat)
    requires DistinctKeys(es)
    requires i < |es|
    ensures Field(ApplyEntries(ps, es), es[i].0) == es[i].1
  {
    ApplyAgrees(ps, es);
  }
}
