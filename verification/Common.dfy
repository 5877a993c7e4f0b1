/** Failure-carrying results and the few set and sequence facts that several modules share. */
module Common {

  datatype Option<+T> = None | Some(value: T)

  datatype Result<+T, +E> = Ok(value: T) | Err(error: E)

  /** Pigeonhole: a subset that is as large as the whole set is the whole set. */
  lemma SubsetOfSameSize<T>(a: set<T>, b: set<T>)
    requires a <= b && |a| == |b|
    ensures a == b
  {
    if x :| x in b && x !in a {
      SubsetIsNoLarger(a, b - {x});
    }
  }

  lemma SubsetIsNoLarger<T>(a: set<T>, b: set<T>)
    requires a <= b
    ensures |a| <= |b|
  {
    assert b == a + (b - a);
  }

  predicate NoDuplicates<T(==)>(s: seq<T>) {
    forall i, j :: 0 <= i < j < |s| ==> s[i] != s[j]
  }

  /** The exchange of two names. */
  function Swap(a: string, b: string, k: string): string {
    if k == a then b else if k == b then a else k
  }

  function SwapKeys<V>(a: string, b: string, m: map<string, V>): map<string, V> {
    map k | k in (set j | j in m :: Swap(a, b, j)) :: m[Swap(a, b, k)]
  }

  lemma SwapKeysAt<V>(a: string, b: string, m: map<string, V>, k: string)
    ensures Swap(a, b, Swap(a, b, k)) == k
    ensures Swap(a, b, k) in SwapKeys(a, b, m) <==> k in m
    ensures k in m ==> SwapKeys(a, b, m)[Swap(a, b, k)] == m[k]
  {
  }
}
