/** Whitespace trimming, decimal numerals and the name patterns of definitions. */
module Text {
  import opened Common

  /** What this project does not look into: the whitespace set, the e-mail, URL and date rules, regular
      expressions (why a pattern does not compile, does it match a whole string), and the nearest double of a number. */
  datatype Formats = Formats(
    space: set<char>,
    isEmail: string -> bool,
    isHttpUrl: string -> bool,
    isDate: string -> bool,
    compileError: string -> Option<string>,
    matches: (string, string) -> bool,
    round: real -> real)

  ghost predicate AllIn(space: set<char>, s: string) {
    forall c :: c in s ==> c in space
  }

  ghost predicate Trimmed(space: set<char>, s: string) {
    s == "" || (s[0] !in space && s[|s| - 1] !in space)
  }

  /** Strips whitespace from both ends. */
  function Trim(space: set<char>, s: string): (r: string)
    ensures Trimmed(space, r)
    decreases |s|
  {
    if s == "" then s
    else if s[0] in space then Trim(space, s[1..])
    else if s[|s| - 1] in space then Trim(space, s[..|s| - 1])
    else s
  }

  /** Only whitespace is stripped: what is left is one contiguous piece of the string. */
  lemma {:induction false} TrimKeepsTheMiddle(space: set<char>, s: string) returns (pre: string, post: string)
    ensures AllIn(space, pre) && AllIn(space, post)
    ensures s == pre + Trim(space, s) + post
    decreases |s|
  {
    if s == "" || (s[0] !in space && s[|s| - 1] !in space) {
      pre, post := "", "";
    } else if s[0] in space {
      pre, post := TrimKeepsTheMiddle(space, s[1..]);
      pre := s[..1] + pre;
    } else {
      pre, post := TrimKeepsTheMiddle(space, s[..|s| - 1]);
      post := post + s[|s| - 1..];
    }
  }

  lemma TrimIsIdempotent(space: set<char>, s: string)
    ensures Trim(space, Trim(space, s)) == Trim(space, s)
  {
  }

  predicate Blank(space: set<char>, s: string) {
    Trim(space, s) == ""
  }

  function Digit(d: nat): char
    requires d < 10
  {
    "0123456789"[d]
  }

  function Decimal(n: nat): string {
    if n < 10 then [Digit(n)] else Decimal(n / 10) + [Digit(n % 10)]
  }

  predicate Lower(c: char) { 'a' <= c <= 'z' }
  predicate Upper(c: char) { 'A' <= c <= 'Z' }
  predicate IsDigit(c: char) { '0' <= c <= '9' }

  /** ^[a-z0-9][a-z0-9-]{0,62}$ */
  predicate IsSlug(s: string) {
    1 <= |s| <= 63 && s[0] != '-' && forall i :: 0 <= i < |s| ==> Lower(s[i]) || IsDigit(s[i]) || s[i] == '-'
  }

  /** ^[a-zA-Z][a-zA-Z0-9_]{0,63}$ */
  predicate IsKey(s: string) {
    1 <= |s| <= 64 && (Lower(s[0]) || Upper(s[0])) &&
    forall i :: 0 <= i < |s| ==> Lower(s[i]) || Upper(s[i]) || IsDigit(s[i]) || s[i] == '_'
  }
}
