/** The two list updates the pages apply to their local copies of server
    data, generic in the record type and its id:
    - `prev.filter(x => x.id !== id)` (after a delete or an expiry);
    - `prev.map(x => x.id === id ? change(x) : x)` (after an update).
 */
module Lists {

  /** `xs.filter(x => key(x) !== k)`. */
  function RemoveKey<T, K(==)>(xs: seq<T>, key: T -> K, k: K): (r: seq<T>)
    ensures forall x :: x in r ==> x in xs && key(x) != k
    ensures forall x :: x in xs && key(x) != k ==> x in r
    ensures forall x :: x in xs && key(x) != k ==> multiset(r)[x] == multiset(xs)[x]
    ensures |r| <= |xs|
  {
    if xs == [] then []
    else
      var rest := RemoveKey(xs[1..], key, k);
      assert xs == [xs[0]] + xs[1..];
      if key(xs[0]) == k then rest else [xs[0]] + rest
  }

  /** Removal keeps the survivors in their original order: it distributes
      over concatenation. */
  lemma {:induction false} RemoveKeyKeepsOrder<T, K>(a: seq<T>, b: seq<T>, key: T -> K, k: K)
    ensures RemoveKey(a + b, key, k) == RemoveKey(a, key, k) + RemoveKey(b, key, k)
    decreases |a|
  {
    if a == [] {
      assert a + b == b;
    } else {
      assert (a + b)[1..] == a[1..] + b;
      RemoveKeyKeepsOrder(a[1..], b, key, k);
    }
  }

  /** Removing an id that no element carries changes nothing. */
  lemma {:induction false} RemoveAbsentKey<T, K>(xs: seq<T>, key: T -> K, k: K)
    requires forall x :: x in xs ==> key(x) != k
    ensures RemoveKey(xs, key, k) == xs
    decreases |xs|
  {
    if xs != [] {
      assert xs[0] in xs;
      forall x | x in xs[1..] ensures key(x) != k {
        assert x in xs;
      }
      RemoveAbsentKey(xs[1..], key, k);
      assert xs == [xs[0]] + xs[1..];
    }
  }

  /** Removing the same id twice is removing it once. */
  lemma RemoveKeyIdempotent<T, K>(xs: seq<T>, key: T -> K, k: K)
    ensures RemoveKey(RemoveKey(xs, key, k), key, k) == RemoveKey(xs, key, k)
  {
    RemoveAbsentKey(RemoveKey(xs, key, k), key, k);
  }

  /** `xs.map(x => key(x) === k ? change(x) : x)`: same length and order,
      matching elements changed, the others untouched. */
  function UpdateKey<T, K(==)>(xs: seq<T>, key: T -> K, k: K, change: T -> T): (r: seq<T>)
    ensures |r| == |xs|
    ensures forall i :: 0 <= i < |xs| && key(xs[i]) == k ==> r[i] == change(xs[i])
    ensures forall i :: 0 <= i < |xs| && key(xs[i]) != k ==> r[i] == xs[i]
  {
    seq(|xs|, i requires 0 <= i < |xs| => if key(xs[i]) == k then change(xs[i]) else xs[i])
  }

  /** Updating twice with a change that is idempotent and keeps the id is
      updating once. */
  lemma UpdateKeyIdempotent<T, K>(xs: seq<T>, key: T -> K, k: K, change: T -> T)
    requires forall x :: key(change(x)) == key(x)
    requires forall x :: change(change(x)) == change(x)
    ensures UpdateKey(UpdateKey(xs, key, k, change), key, k, change) == UpdateKey(xs, key, k, change)
  {
  }
}
