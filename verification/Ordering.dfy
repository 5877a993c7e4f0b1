/** The order of keys: listed ones first, as listed, and the others alphabetically. Without a list it is the order
    of slugs. */
module Ordering {

  /** Lexicographic comparison, character by character. */
  predicate Leq(a: string, b: string) {
    a == "" || (b != "" && (a[0] < b[0] || (a[0] == b[0] && Leq(a[1..], b[1..]))))
  }

  lemma {:induction false} LeqIsTotal(a: string, b: string)
    ensures Leq(a, b) || Leq(b, a)
    ensures Leq(a, b) && Leq(b, a) ==> a == b
  {
    if a != "" && b != "" && a[0] == b[0] {
      LeqIsTotal(a[1..], b[1..]);
      assert a == [a[0]] + a[1..] && b == [b[0]] + b[1..];
    }
  }

  lemma {:induction false} LeqIsTransitive(a: string, b: string, c: string)
    requires Leq(a, b) && Leq(b, c)
    ensures Leq(a, c)
  {
    if a != "" && a[0] == b[0] && b[0] == c[0] {
      LeqIsTransitive(a[1..], b[1..], c[1..]);
    }
  }

  /** The position of a key in the list, or its length. */
  function Rank(listed: seq<string>, k: string): nat {
    if listed == [] || listed[0] == k then 0 else 1 + Rank(listed[1..], k)
  }

  predicate Precedes(listed: seq<string>, a: string, b: string) {
    Rank(listed, a) < Rank(listed, b) || (Rank(listed, a) == Rank(listed, b) && Leq(a, b))
  }

  lemma PrecedesIsTotal(listed: seq<string>, a: string, b: string)
    ensures Precedes(listed, a, b) || Precedes(listed, b, a)
    ensures Precedes(listed, a, b) && Precedes(listed, b, a) ==> a == b
  {
    hide Leq, Rank;
    LeqIsTotal(a, b);
  }

  lemma PrecedesIsTransitive(listed: seq<string>, a: string, b: string, c: string)
    requires Precedes(listed, a, b) && Precedes(listed, b, c)
    ensures Precedes(listed, a, c)
  {
    hide Leq, Rank;
    if Rank(listed, a) == Rank(listed, b) == Rank(listed, c) { LeqIsTransitive(a, b, c); }
  }

  ghost predicate IsFirst(listed: seq<string>, k: string, s: set<string>) {
    k in s && forall j :: j in s ==> Precedes(listed, k, j)
  }

  lemma {:induction false} FirstExists(listed: seq<string>, s: set<string>) returns (k: string)
    requires s != {}
    ensures k in s && IsFirst(listed, k, s)
    decreases |s|
  {
    hide Precedes;
    k :| k in s;
    if s != {k} {
      var rest := s - {k};
      var m := FirstExists(listed, rest);
      PrecedesIsTotal(listed, k, m);
      PrecedesIsTotal(listed, k, k);
      if Precedes(listed, k, m) {
        forall j | j in s ensures Precedes(listed, k, j) {
          if j != k { PrecedesIsTransitive(listed, k, m, j); }
        }
      } else {
        k := m;
      }
    } else {
      PrecedesIsTotal(listed, k, k);
    }
  }

  lemma FirstIsUnique(listed: seq<string>, s: set<string>, k: string, m: string)
    requires IsFirst(listed, k, s) && IsFirst(listed, m, s)
    ensures k == m
  {
    PrecedesIsTotal(listed, k, m);
  }

  ghost function First(listed: seq<string>, s: set<string>): (k: string)
    requires s != {}
    ensures k in s && IsFirst(listed, k, s)
  {
    FirstExistsAsFact(listed, s);
    var k :| IsFirst(listed, k, s);
    k
  }

  lemma FirstExistsAsFact(listed: seq<string>, s: set<string>)
    requires s != {}
    ensures exists k :: IsFirst(listed, k, s)
  {
    var k := FirstExists(listed, s);
  }

  /** The elements in ascending order. */
  ghost function Sorted(listed: seq<string>, s: set<string>): (r: seq<string>)
    ensures |r| == |s| && forall k :: k in r <==> k in s
    decreases |s|
  {
    if s == {} then [] else [First(listed, s)] + Sorted(listed, s - {First(listed, s)})
  }

  ghost predicate Ascending(listed: seq<string>, r: seq<string>) {
    forall i, j :: 0 <= i < j < |r| ==> Precedes(listed, r[i], r[j]) && r[i] != r[j]
  }

  lemma FirstComesFirst(listed: seq<string>, s: set<string>, j: string)
    requires s != {} && j in s - {First(listed, s)}
    ensures Precedes(listed, First(listed, s), j) && First(listed, s) != j
  {
    hide Precedes, Sorted;
  }

  lemma {:induction false} SortedAscends(listed: seq<string>, s: set<string>)
    ensures Ascending(listed, Sorted(listed, s))
    decreases |s|
  {
    hide Precedes, First, IsFirst;
    if s != {} {
      var k := First(listed, s);
      var rest := Sorted(listed, s - {k});
      SortedAscends(listed, s - {k});
      forall j | 0 <= j < |rest| ensures Precedes(listed, k, rest[j]) && k != rest[j] {
        FirstComesFirst(listed, s, rest[j]);
      }
      AscendingCons(listed, k, rest);
    }
  }

  lemma AscendingCons(listed: seq<string>, k: string, rest: seq<string>)
    requires Ascending(listed, rest) && forall j :: 0 <= j < |rest| ==> Precedes(listed, k, rest[j]) && k != rest[j]
    ensures Ascending(listed, [k] + rest)
  {
    hide Precedes;
    var r := [k] + rest;
    forall i, j | 0 <= i < j < |r| ensures Precedes(listed, r[i], r[j]) && r[i] != r[j] {
      assert r[j] == rest[j - 1] && (i > 0 ==> r[i] == rest[i - 1]);
    }
  }

  method FindFirst(listed: seq<string>, s: set<string>) returns (k: string)
    requires s != {}
    ensures k == First(listed, s)
  {
    hide Precedes, First, Sorted;
    k :| k in s;
    PrecedesIsTotal(listed, k, k);
    var rest := s - {k};
    while rest != {}
      invariant k in s && rest <= s
      invariant forall j :: j in s - rest ==> Precedes(listed, k, j)
      decreases |rest|
    {
      var m :| m in rest;
      PrecedesIsTotal(listed, k, m);
      PrecedesIsTotal(listed, m, m);
      if !Precedes(listed, k, m) {
        forall j | j in s - rest ensures Precedes(listed, m, j) {
          PrecedesIsTransitive(listed, m, k, j);
        }
        k := m;
      }
      rest := rest - {m};
    }
    FirstIsUnique(listed, s, k, First(listed, s));
  }

  lemma SortedStep(listed: seq<string>, s: set<string>)
    ensures Sorted(listed, {}) == []
    ensures s != {} ==> Sorted(listed, s) == [First(listed, s)] + Sorted(listed, s - {First(listed, s)})
  {
    hide Precedes, First, IsFirst;
  }

  /** Selects the first element again and again. */
  method SortKeys(listed: seq<string>, s: set<string>) returns (r: seq<string>)
    ensures r == Sorted(listed, s)
  {
    hide Precedes, First, IsFirst, Sorted;
    SortedStep(listed, s);
    r := [];
    var todo := s;
    while todo != {}
      invariant Sorted(listed, s) == r + Sorted(listed, todo)
      decreases |todo|
    {
      var k := FindFirst(listed, todo);
      SortedStep(listed, todo);
      assert r + Sorted(listed, todo) == (r + [k]) + Sorted(listed, todo - {k});
      r := r + [k];
      todo := todo - {k};
    }
  }
}
