/** Lists of problems with their paths. */
module Problems {
  import opened Text

  datatype Problem = Problem(path: string, message: string)

  function At(prefix: string, i: nat): string {
    prefix + "[" + Decimal(i) + "]"
  }

  function When(bad: bool, path: string, message: string): seq<Problem> {
    if bad then [Problem(path, message)] else []
  }

  /** The problems of the first n items of a list, in order. */
  function Collect(of: nat -> seq<Problem>, n: nat): (ps: seq<Problem>)
    ensures ps == [] <==> forall i :: 0 <= i < n ==> of(i) == []
  {
    if n == 0 then [] else Collect(of, n - 1) + of(n - 1)
  }

  lemma OneMore(of: nat -> seq<Problem>, n: nat)
    ensures Collect(of, n + 1) == Collect(of, n) + of(n)
  {
  }

  /** Paths below a prefix, where an empty one is the prefix itself. */
  function Joined(prefix: string, ps: seq<Problem>): seq<Problem> {
    seq(|ps|, i requires 0 <= i < |ps| =>
      ps[i].(path := if prefix == "" then ps[i].path
                     else if ps[i].path == "" then prefix else prefix + "." + ps[i].path))
  }

  /** The same, for paths that may begin with an index. */
  function Prefixed(prefix: string, ps: seq<Problem>): seq<Problem> {
    seq(|ps|, i requires 0 <= i < |ps| =>
      ps[i].(path := if ps[i].path == "" then prefix
                     else if ps[i].path[0] == '[' then prefix + ps[i].path
                     else prefix + "." + ps[i].path))
  }
}
