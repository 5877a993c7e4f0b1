/** JSON values and the two deep-equality tests of the repository: the server's, which compares
    normal forms, and the SDK's, which walks both values at once. Numbers are reals. */
module JsonValues {
  import opened Common

  datatype Json =
    | Null
    | Bool(b: bool)
    | Num(n: real)
    | Str(s: string)
    | Arr(items: seq<Json>)
    | Obj(members: map<string, Json>)

  /** The tagged normal form that the server compares. A list of pairs sorted by distinct keys is a map. */
  datatype Norm =
    | NNum(n: real)
    | NBool(b: bool)
    | NList(items: seq<Norm>)
    | NDict(members: map<string, Norm>)
    | NOther(v: Json)

  /** None for everything that is not a number; booleans are not numbers. */
  function ToNumber(v: Json): Option<real> {
    if v.Num? then Some(v.n) else None
  }

  /** `round` takes a number to the nearest double. */
  function Normalize(round: real -> real, v: Json): Norm {
    if ToNumber(v).Some? then NNum(round(ToNumber(v).value))
    else match v
      case Bool(b) => NBool(b)
      case Arr(items) => NList(seq(|items|, i requires 0 <= i < |items| => Normalize(round, items[i])))
      case Obj(members) => NDict(map k | k in members :: Normalize(round, members[k]))
      case _ => NOther(v)
  }

  predicate JsonEqual(round: real -> real, a: Json, b: Json) {
    Normalize(round, a) == Normalize(round, b)
  }

  /** The value with every number in it rounded. */
  function Rounded(round: real -> real, v: Json): Json {
    match v
    case Num(n) => Num(round(n))
    case Arr(items) => Arr(seq(|items|, i requires 0 <= i < |items| => Rounded(round, items[i])))
    case Obj(members) => Obj(map k | k in members :: Rounded(round, members[k]))
    case _ => v
  }

  /** Every number in the value is one that a double holds. */
  predicate Exact(round: real -> real, v: Json) {
    match v
    case Num(n) => round(n) == n
    case Arr(items) => forall i :: 0 <= i < |items| ==> Exact(round, items[i])
    case Obj(members) => forall k :: k in members ==> Exact(round, members[k])
    case _ => true
  }

  /** The normal form loses the last digits of numbers and nothing else. */
  lemma {:induction false} JsonEqualIsRoundedEquality(round: real -> real, a: Json, b: Json)
    ensures JsonEqual(round, a, b) <==> Rounded(round, a) == Rounded(round, b)
    decreases a, 1
  {
    if a.Arr? && b.Arr? {
      SameLists(round, a, b);
    } else if a.Obj? && b.Obj? {
      SameObjects(round, a, b);
    }
  }

  lemma {:induction false} SameLists(round: real -> real, a: Json, b: Json)
    requires a.Arr? && b.Arr?
    ensures JsonEqual(round, a, b) <==> Rounded(round, a) == Rounded(round, b)
    decreases a, 0
  {
    var na, nb := Normalize(round, a).items, Normalize(round, b).items;
    var ra, rb := Rounded(round, a).items, Rounded(round, b).items;
    assert |na| == |ra| == |a.items| && |nb| == |rb| == |b.items|;
    if |na| == |nb| {
      forall i | 0 <= i < |na| ensures na[i] == nb[i] <==> ra[i] == rb[i] {
        JsonEqualIsRoundedEquality(round, a.items[i], b.items[i]);
      }
      assert na == nb <==> ra == rb;
    }
  }

  lemma {:induction false} SameObjects(round: real -> real, a: Json, b: Json)
    requires a.Obj? && b.Obj?
    ensures JsonEqual(round, a, b) <==> Rounded(round, a) == Rounded(round, b)
    decreases a, 0
  {
    var na, nb := Normalize(round, a).members, Normalize(round, b).members;
    var ra, rb := Rounded(round, a).members, Rounded(round, b).members;
    assert na.Keys == ra.Keys == a.members.Keys && nb.Keys == rb.Keys == b.members.Keys;
    if na.Keys == nb.Keys {
      forall k | k in a.members ensures na[k] == nb[k] <==> ra[k] == rb[k] {
        JsonEqualIsRoundedEquality(round, a.members[k], b.members[k]);
      }
      assert na == nb <==> ra == rb;
    }
  }

  /** Rounding leaves alone exactly the values whose numbers doubles hold. */
  lemma {:induction false} ExactIsUnrounded(round: real -> real, v: Json)
    ensures Exact(round, v) <==> Rounded(round, v) == v
  {
    if v.Arr? {
      var r := Rounded(round, v).items;
      forall i | 0 <= i < |v.items| { ExactIsUnrounded(round, v.items[i]); }
      assert r == v.items <==> forall i :: 0 <= i < |v.items| ==> r[i] == v.items[i];
    } else if v.Obj? {
      var r := Rounded(round, v).members;
      assert r.Keys == v.members.Keys;
      forall k | k in v.members { ExactIsUnrounded(round, v.members[k]); }
      assert r == v.members <==> forall k :: k in v.members ==> r[k] == v.members[k];
    }
  }

  lemma {:induction false} RoundedTwice(round: real -> real, v: Json)
    requires forall n :: round(round(n)) == round(n)
    ensures Exact(round, Rounded(round, v))
  {
    if v.Arr? {
      forall i | 0 <= i < |v.items| { RoundedTwice(round, v.items[i]); }
    } else if v.Obj? {
      forall k | k in v.members { RoundedTwice(round, v.members[k]); }
    }
  }

  /** Between values whose numbers doubles hold the server's comparison is equality; any other value is taken
      for its rounded one, which is different. */
  lemma JsonEqualIsEquality(round: real -> real, a: Json, b: Json)
    ensures Exact(round, a) && Exact(round, b) ==> (JsonEqual(round, a, b) <==> a == b)
    ensures (forall n :: round(round(n)) == round(n)) ==>
              (JsonEqual(round, a, Rounded(round, a)) && (a != Rounded(round, a) <==> !Exact(round, a)))
  {
    JsonEqualIsRoundedEquality(round, a, b);
    ExactIsUnrounded(round, a);
    ExactIsUnrounded(round, b);
    if forall n :: round(round(n)) == round(n) {
      RoundedTwice(round, a);
      ExactIsUnrounded(round, Rounded(round, a));
      JsonEqualIsRoundedEquality(round, a, Rounded(round, a));
    }
  }

  const TWO_TO_53 := 9007199254740992.0

  /** Round half to even, for the integers from 2^53 to 2^54, of which doubles hold the even ones. */
  function RoundAbove53(n: real): real {
    var even := (n.Floor / 2 * 2) as real;
    if n < TWO_TO_53 || n > 2.0 * TWO_TO_53 || n == even then n
    else if n.Floor / 2 % 2 == 0 then even else even + 2.0
  }

  /** Two integers that the server takes for equal. */
  lemma NeighboursAreTakenForEqual()
    ensures JsonEqual(RoundAbove53, Num(TWO_TO_53), Num(TWO_TO_53 + 1.0)) && Num(TWO_TO_53) != Num(TWO_TO_53 + 1.0)
  {
    assert (TWO_TO_53 + 1.0).Floor == 9007199254740993;
  }

  /** The SDK's comparison. The right side is None where JavaScript reads a missing property;
      object keys are checked in one direction only, after their number. */
  predicate SdkEqual(a: Json, b: Option<Json>) {
    match b
    case None => false
    case Some(Arr(bs)) => a.Arr? && |a.items| == |bs| && forall i :: 0 <= i < |bs| ==> SdkEqual(a.items[i], Some(bs[i]))
    case Some(Obj(bm)) =>
      a.Obj? && |a.members.Keys| == |bm.Keys| &&
      forall k :: k in a.members.Keys ==> SdkEqual(a.members[k], if k in bm then Some(bm[k]) else None)
    case Some(v) => a == v
  }

  /** Checking the keys of one side suffices, so the SDK's comparison is structural equality too;
      in particular a JavaScript identity test that answers early changes no answer. */
  lemma {:induction false} SdkEqualIsEquality(a: Json, b: Option<Json>)
    ensures SdkEqual(a, b) <==> b == Some(a)
  {
    match b
    case Some(Arr(bs)) =>
      if a.Arr? && |a.items| == |bs| {
        forall i | 0 <= i < |bs| { SdkEqualIsEquality(a.items[i], Some(bs[i])); }
        assert SdkEqual(a, b) <==> a.items == bs;
      }
    case Some(Obj(bm)) =>
      if a.Obj? {
        forall k | k in a.members.Keys { SdkEqualIsEquality(a.members[k], if k in bm then Some(bm[k]) else None); }
        if SdkEqual(a, b) {
          forall k | k in a.members.Keys ensures k in bm.Keys && a.members[k] == bm[k] {
            assert SdkEqual(a.members[k], if k in bm then Some(bm[k]) else None);
          }
          SubsetOfSameSize(a.members.Keys, bm.Keys);
          assert a.members == bm;
        }
      }
    case _ =>
  }
}
