/** Helpers that the editors share: patches, fresh numbered names and moving an item of a list. */
module Objects {
  import opened Common
  import opened Text

  lemma {:induction false} DecimalIsInjective(a: nat, b: nat)
    requires Decimal(a) == Decimal(b)
    ensures a == b
  {
    var da, db := Decimal(a), Decimal(b);
    assert da[|da| - 1] == Digit(a % 10) && db[|db| - 1] == Digit(b % 10);
    if a >= 10 && b >= 10 {
      assert da[..|da| - 1] == Decimal(a / 10) && db[..|db| - 1] == Decimal(b / 10);
      DecimalIsInjective(a / 10, b / 10);
    }
  }

  function Numbered(prefix: string, n: nat): string {
    prefix + Decimal(n)
  }

  lemma NumberedIsInjective(prefix: string, a: nat, b: nat)
    requires Numbered(prefix, a) == Numbered(prefix, b)
    ensures a == b
  {
    assert Numbered(prefix, a)[|prefix|..] == Decimal(a) && Numbered(prefix, b)[|prefix|..] == Decimal(b);
    DecimalIsInjective(a, b);
  }

  ghost predicate AllTaken(prefix: string, taken: set<string>, first: nat, n: nat) {
    forall m :: first <= m < n ==> Numbered(prefix, m) in taken
  }

  /** Pigeonhole: as many names are taken as there were failed candidates. */
  lemma {:induction false} FailuresAreTaken(prefix: string, taken: set<string>, first: nat, n: nat)
    requires first <= n && AllTaken(prefix, taken, first, n)
    ensures n - first <= |taken|
  {
    if first < n {
      var last := Numbered(prefix, n - 1);
      forall m | first <= m < n - 1 ensures Numbered(prefix, m) in taken - {last} {
        if Numbered(prefix, m) == last { NumberedIsInjective(prefix, m, n - 1); }
      }
      FailuresAreTaken(prefix, taken - {last}, first, n - 1);
    }
  }

  /** The first number from n on whose name is free. */
  function FirstFree(prefix: string, taken: set<string>, first: nat, n: nat): (r: nat)
    requires first <= n && AllTaken(prefix, taken, first, n)
    ensures n <= r && Numbered(prefix, r) !in taken && AllTaken(prefix, taken, first, r)
    decreases |taken| + first - n
  {
    if Numbered(prefix, n) !in taken then n
    else
      FailuresAreTaken(prefix, taken, first, n + 1);
      FirstFree(prefix, taken, first, n + 1)
  }

  function NextNumbered(prefix: string, taken: set<string>): string {
    Numbered(prefix, FirstFree(prefix, taken, 1, 1))
  }

  function UniqueName(base: string, taken: set<string>): (r: string)
    ensures r !in taken
  {
    if base !in taken then base else Numbered(base, FirstFree(base, taken, 2, 2))
  }

  /** The unbounded search terminates, with the least free number. */
  method SearchNumbered(prefix: string, taken: seq<string>) returns (key: string)
    ensures key !in taken
    ensures exists n: nat ::
              1 <= n && key == Numbered(prefix, n) &&
              forall m: nat :: 1 <= m < n ==> Numbered(prefix, m) in taken
    ensures key == NextNumbered(prefix, set k | k in taken)
  {
    var names := set k | k in taken;
    var n := 1;
    while Numbered(prefix, n) in names
      invariant 1 <= n && AllTaken(prefix, names, 1, n)
      invariant FirstFree(prefix, names, 1, 1) == FirstFree(prefix, names, 1, n)
      decreases |names| + 1 - n
    {
      FailuresAreTaken(prefix, names, 1, n + 1);
      n := n + 1;
    }
    return Numbered(prefix, n);
  }

  /** A patch gives the new value, or leaves the old one. */
  predicate Gets<T(==)>(patch: Option<T>, was: T, now: T) {
    match patch
    case Some(v) => now == v
    case None => now == was
  }

  function Remove<T>(items: seq<T>, i: nat): seq<T>
    requires i < |items|
  {
    items[..i] + items[i + 1..]
  }

  function Insert<T>(items: seq<T>, i: nat, x: T): seq<T>
    requires i <= |items|
  {
    items[..i] + [x] + items[i..]
  }

  /** The item lands where it should and the others keep their order. */
  function MoveItem<T>(items: seq<T>, from: nat, to: nat): (r: seq<T>)
    requires from < |items| && to < |items|
    ensures |r| == |items| && r[to] == items[from] && Remove(r, to) == Remove(items, from)
  {
    Insert(Remove(items, from), to, items[from])
  }
}
