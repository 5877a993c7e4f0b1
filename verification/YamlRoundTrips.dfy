/** When a document reads back as the tree that it was written from. */
module YamlRoundTrips {
  import opened Common
  import opened JsonValues
  import opened Ordering
  import opened YamlEmitter
  import opened YamlReader
  import opened YamlScalars

  /** The string "<<", as a key or anywhere else, is written as a merge. */
  ghost predicate NoMerge(v: Json) {
    match v
    case Str(s) => s != "<<"
    case Arr(items) => forall i :: 0 <= i < |items| ==> NoMerge(items[i])
    case Obj(members) => forall k :: k in members ==> k != "<<" && NoMerge(members[k])
    case _ => true
  }

  /** The three words resolve to what they say, and a text that some plain key is read as is not itself read as
      another key. */
  ghost predicate GoodLoader(ld: Loader) {
    ld.resolve("null") == Some(Null) && ld.resolve("true") == Some(Bool(true)) &&
    ld.resolve("false") == Some(Bool(false)) &&
    forall s :: ld.plainKey(s).Some? ==>
      ld.plainKey(ld.plainKey(s).value).None? || ld.plainKey(ld.plainKey(s).value) == ld.plainKey(s)
  }

  ghost predicate StringResolves(sp: Spelling, ld: Loader, s: string) {
    WrittenPlain(sp, Str(s), false) ==> ld.resolve(s) == Some(Str(s))
  }

  ghost predicate KeyResolves(sp: Spelling, ld: Loader, k: string) {
    WrittenPlain(sp, Str(k), true) ==> ld.plainKey(k) == Some(k)
  }

  ghost predicate NumberResolves(sp: Spelling, ld: Loader, n: real) {
    WrittenPlain(sp, Num(n), false) && ld.resolve(sp.number(n)) == Some(Num(n))
  }

  /** Every string and key that is written plain resolves to itself, and so does the spelling of every number. */
  ghost predicate PlainsResolve(sp: Spelling, ld: Loader, v: Json) {
    match v
    case Str(s) => StringResolves(sp, ld, s)
    case Num(n) => NumberResolves(sp, ld, n)
    case Arr(items) => forall i :: 0 <= i < |items| ==> PlainsResolve(sp, ld, items[i])
    case Obj(members) => forall k :: k in members ==> KeyResolves(sp, ld, k) && PlainsResolve(sp, ld, members[k])
    case _ => true
  }

  lemma LeafIsSeen(sp: Spelling, ld: Loader, v: Json)
    requires GoodSpelling(sp) && GoodLoader(ld) && IsLeaf(v)
    ensures Seen(sp, ld, v) == Some(v) <==> NoMerge(v) && PlainsResolve(sp, ld, v)
  {
    hide Analyze;
    WordsArePlain();
  }

  lemma KeyIsSeen(sp: Spelling, ld: Loader, k: string)
    ensures SeenKey(sp, ld, k) == Some(k) <==> k != "<<" && KeyResolves(sp, ld, k)
  {
    hide WrittenPlain;
  }

  /** No two different keys are seen as each other. */
  lemma SeenKeysSettle(sp: Spelling, ld: Loader, k: string)
    requires GoodLoader(ld) && SeenKey(sp, ld, k).Some?
    ensures var seen := SeenKey(sp, ld, k).value; SeenKey(sp, ld, seen).None? || SeenKey(sp, ld, seen) == Some(seen)
  {
    hide WrittenPlain;
  }

  lemma {:induction false} ItemsAreSeen(sp: Spelling, ld: Loader, v: Json, from: nat)
    requires v.Arr? && from <= |v.items|
    ensures var r := SeenItems(sp, ld, v, from);
            (r.Some? <==> forall i :: from <= i < |v.items| ==> Seen(sp, ld, v.items[i]).Some?) &&
            (r.Some? ==> |r.value| == |v.items| - from &&
                         forall i :: from <= i < |v.items| ==> Seen(sp, ld, v.items[i]) == Some(r.value[i - from]))
    decreases |v.items| - from
  {
    hide Seen;
    if from < |v.items| {
      ItemsAreSeen(sp, ld, v, from + 1);
    }
  }

  /** What a mapping that is seen says of its entries. */
  ghost predicate Saw(sp: Spelling, ld: Loader, v: Json, keys: seq<string>, m: map<string, Json>)
    requires v.Obj? && forall k :: k in keys ==> k in v.members
  {
    (forall k :: k in keys ==>
       SeenKey(sp, ld, k).Some? && SeenKey(sp, ld, k).value in m &&
       Seen(sp, ld, v.members[k]) == Some(m[SeenKey(sp, ld, k).value])) &&
    (forall j :: j in m ==> exists k :: k in keys && SeenKey(sp, ld, k) == Some(j)) &&
    forall a, b :: a in keys && b in keys && a != b ==> SeenKey(sp, ld, a) != SeenKey(sp, ld, b)
  }

  lemma {:induction false} EntriesAreSeen(sp: Spelling, ld: Loader, v: Json, keys: seq<string>)
    requires v.Obj? && forall k :: k in keys ==> k in v.members
    requires SeenEntries(sp, ld, v, keys).Some?
    ensures Saw(sp, ld, v, keys, SeenEntries(sp, ld, v, keys).value)
    decreases |keys|
  {
    hide Seen, SeenKey, Saw;
    if keys == [] {
      NothingSaw(sp, ld, v);
    } else {
      EntriesAreSeen(sp, ld, v, keys[1..]);
      OneMoreSaw(sp, ld, v, keys, SeenEntries(sp, ld, v, keys[1..]).value);
    }
  }

  lemma NothingSaw(sp: Spelling, ld: Loader, v: Json)
    requires v.Obj?
    ensures Saw(sp, ld, v, [], map[])
  {
  }

  lemma OneMoreSaw(sp: Spelling, ld: Loader, v: Json, keys: seq<string>, m: map<string, Json>)
    requires v.Obj? && keys != [] && (forall k :: k in keys ==> k in v.members) && Saw(sp, ld, v, keys[1..], m)
    requires SeenKey(sp, ld, keys[0]).Some? && Seen(sp, ld, v.members[keys[0]]).Some?
    requires SeenKey(sp, ld, keys[0]).value !in m
    ensures Saw(sp, ld, v, keys, m[SeenKey(sp, ld, keys[0]).value := Seen(sp, ld, v.members[keys[0]]).value])
  {
    hide Seen, SeenKey;
    assert keys == [keys[0]] + keys[1..];
    var m' := m[SeenKey(sp, ld, keys[0]).value := Seen(sp, ld, v.members[keys[0]]).value];
    forall j | j in m' ensures exists k :: k in keys && SeenKey(sp, ld, k) == Some(j) {
      if j in m {
        var k :| k in keys[1..] && SeenKey(sp, ld, k) == Some(j);
        assert k in keys;
      } else {
        assert keys[0] in keys;
      }
    }
  }

  ghost predicate AllSeen(sp: Spelling, ld: Loader, v: Json, keys: seq<string>)
    requires v.Obj? && forall k :: k in keys ==> k in v.members
  {
    forall k :: k in keys ==> Seen(sp, ld, v.members[k]).Some?
  }

  ghost function SeenValues(sp: Spelling, ld: Loader, v: Json, keys: seq<string>): (m: map<string, Json>)
    requires v.Obj? && (forall k :: k in keys ==> k in v.members) && AllSeen(sp, ld, v, keys)
    ensures forall k :: k in m <==> k in keys
    ensures forall k :: k in keys ==> Seen(sp, ld, v.members[k]) == Some(m[k])
  {
    map k | k in keys :: Seen(sp, ld, v.members[k]).value
  }

  /** With its own keys a mapping is seen entry by entry. */
  lemma {:induction false} OwnKeysAreSeen(sp: Spelling, ld: Loader, v: Json, keys: seq<string>)
    requires v.Obj? && NoDuplicates(keys) && forall k :: k in keys ==> k in v.members && SeenKey(sp, ld, k) == Some(k)
    ensures SeenEntries(sp, ld, v, keys) ==
            if AllSeen(sp, ld, v, keys) then Some(SeenValues(sp, ld, v, keys)) else None
    decreases |keys|
  {
    hide Seen, SeenKey, SeenValues, AllSeen, NoDuplicates;
    if keys == [] {
      NothingToSee(sp, ld, v);
    } else {
      OneMoreToSee(sp, ld, v, keys);
      OwnKeysAreSeen(sp, ld, v, keys[1..]);
    }
  }

  lemma NothingToSee(sp: Spelling, ld: Loader, v: Json)
    requires v.Obj?
    ensures AllSeen(sp, ld, v, []) && SeenValues(sp, ld, v, []) == map[]
  {
  }

  lemma OneMoreToSee(sp: Spelling, ld: Loader, v: Json, keys: seq<string>)
    requires v.Obj? && keys != [] && NoDuplicates(keys) && forall k :: k in keys ==> k in v.members
    ensures NoDuplicates(keys[1..]) && keys[0] !in keys[1..]
    ensures AllSeen(sp, ld, v, keys) <==> Seen(sp, ld, v.members[keys[0]]).Some? && AllSeen(sp, ld, v, keys[1..])
    ensures AllSeen(sp, ld, v, keys) ==>
              SeenValues(sp, ld, v, keys) ==
              SeenValues(sp, ld, v, keys[1..])[keys[0] := Seen(sp, ld, v.members[keys[0]]).value]
  {
    hide Seen;
    assert forall k :: k in keys <==> k == keys[0] || k in keys[1..];
  }

  /** A mapping that is seen as itself has its own keys and values. */
  lemma SeenAsItself(sp: Spelling, ld: Loader, v: Json, keys: seq<string>)
    requires GoodLoader(ld) && v.Obj? && (forall k :: k in keys <==> k in v.members)
    requires Saw(sp, ld, v, keys, v.members)
    ensures forall k :: k in v.members ==>
              SeenKey(sp, ld, k) == Some(k) && Seen(sp, ld, v.members[k]) == Some(v.members[k])
  {
    hide Seen, SeenKey, GoodLoader;
    forall k | k in v.members ensures SeenKey(sp, ld, k) == Some(k) {
      var seen := SeenKey(sp, ld, k).value;
      SeenKeysSettle(sp, ld, k);
      assert seen in v.members && seen in keys;
      assert SeenKey(sp, ld, seen) == SeenKey(sp, ld, k);
    }
  }

  /** The reader sees the tree itself exactly if there is no "<<" in it and all its plain scalars resolve. */
  lemma {:induction false} SeenIff(sp: Spelling, ld: Loader, v: Json)
    requires GoodSpelling(sp) && GoodLoader(ld)
    ensures Seen(sp, ld, v) == Some(v) <==> NoMerge(v) && PlainsResolve(sp, ld, v)
    decreases v
  {
    hide GoodLoader, GoodSpelling, SeenKey, SeenEntries, SeenItems, Sorted, KeyResolves;
    if IsLeaf(v) {
      LeafIsSeen(sp, ld, v);
    } else if v.Arr? {
      forall i | 0 <= i < |v.items| { SeenIff(sp, ld, v.items[i]); }
      ItemsAreSeen(sp, ld, v, 0);
      ListIsSeen(sp, ld, v);
    } else {
      forall k | k in v.members
        ensures SeenKey(sp, ld, k) == Some(k) && Seen(sp, ld, v.members[k]) == Some(v.members[k]) <==>
                k != "<<" && KeyResolves(sp, ld, k) && NoMerge(v.members[k]) && PlainsResolve(sp, ld, v.members[k])
      {
        SeenIff(sp, ld, v.members[k]);
        KeyIsSeen(sp, ld, k);
      }
      MappingIsSeen(sp, ld, v);
    }
  }

  lemma ListIsSeen(sp: Spelling, ld: Loader, v: Json)
    requires v.Arr? && !IsLeaf(v)
    ensures Seen(sp, ld, v) == Some(v) <==>
            forall i :: 0 <= i < |v.items| ==> Seen(sp, ld, v.items[i]) == Some(v.items[i])
  {
    ItemsAreSeen(sp, ld, v, 0);
    var r := SeenItems(sp, ld, v, 0);
    assert Seen(sp, ld, v) == if r.Some? then Some(Arr(r.value)) else None;
    if r.Some? && forall i :: 0 <= i < |v.items| ==> Seen(sp, ld, v.items[i]) == Some(v.items[i]) {
      assert r.value == v.items;
    }
  }

  lemma MappingIsSeen(sp: Spelling, ld: Loader, v: Json)
    requires GoodLoader(ld) && v.Obj? && !IsLeaf(v)
    ensures Seen(sp, ld, v) == Some(v) <==>
            forall k :: k in v.members ==>
                SeenKey(sp, ld, k) == Some(k) && Seen(sp, ld, v.members[k]) == Some(v.members[k])
  {
    hide GoodLoader, SeenKey, Sorted, Saw;
    var keys := Sorted(KEY_ORDER, v.members.Keys);
    SortedKeys(v);
    assert Seen(sp, ld, v) == match SeenEntries(sp, ld, v, keys) case None => None case Some(m) => Some(Obj(m));
    if Seen(sp, ld, v) == Some(v) {
      EntriesAreSeen(sp, ld, v, keys);
      SeenAsItself(sp, ld, v, keys);
    }
    if forall k :: k in v.members ==>
         SeenKey(sp, ld, k) == Some(k) && Seen(sp, ld, v.members[k]) == Some(v.members[k]) {
      OwnKeysAreSeen(sp, ld, v, keys);
      assert AllSeen(sp, ld, v, keys);
      assert SeenValues(sp, ld, v, keys) == v.members;
    }
  }

  /** A document reads back as the tree that it was written from if and only if "<<" does not occur in the tree, and
      every plain scalar in it is one that the loader resolves to what was written. */
  lemma ReadsBack(sp: Spelling, ld: Loader, v: Json)
    requires GoodSpelling(sp) && GoodLoader(ld) && SingleLine(v)
    ensures Parse(ld, Document(sp, v)) == Some(v) <==> NoMerge(v) && PlainsResolve(sp, ld, v)
  {
    hide Parse, Document, Seen, NoMerge, PlainsResolve, GoodLoader, GoodSpelling;
    DocumentReads(sp, ld, v);
    SeenIff(sp, ld, v);
  }
}
