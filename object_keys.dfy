/** The order in which `for…in` visits the own keys of a plain object, which
    google-apps-script-clean.js uses as its maps: keys that are array indices
    ("0", "12", ...) first, in ascending numeric order, then every other key
    in the order it was first set (section 10.1.11.1,
    OrdinaryOwnPropertyKeys, of ECMAScript 2022). */
module ObjectKeys {
  import opened JsValues
  import opened ReferenceData

  /** The largest array index plus one, `2^32 - 1`. */
  const ARRAY_INDEX_BOUND: nat := 4294967295

  /** `k` is the canonical decimal text of an array index: digits only, no
      leading zero except in "0" itself, and below `2^32 - 1`. */
  predicate IsArrayIndex(k: string) {
    |k| > 0 && AllDigits(k) && (k[0] != '0' || k == "0") && DecimalValue(k) < ARRAY_INDEX_BOUND
  }

  /** The numeric value of a key, used only to order array indices. */
  function IndexValue(k: string): nat {
    if AllDigits(k) then DecimalValue(k) else 0
  }

  /** The array-index keys of `keys`, in their order. */
  function IndexKeys(keys: seq<string>): seq<string> {
    if keys == [] then [] else IndexKeys(Init(keys)) + if IsArrayIndex(Last(keys)) then [Last(keys)] else []
  }

  /** The other keys of `keys`, in their order. */
  function OtherKeys(keys: seq<string>): seq<string> {
    if keys == [] then [] else OtherKeys(Init(keys)) + if IsArrayIndex(Last(keys)) then [] else [Last(keys)]
  }

  /** `k` put in front of the first element of `s` that it does not exceed. */
  function Insert(k: string, s: seq<string>): seq<string> {
    if s == [] then [k]
    else if IndexValue(k) <= IndexValue(s[0]) then [k] + s
    else [s[0]] + Insert(k, s[1..])
  }

  function SortByValue(ks: seq<string>): seq<string> {
    if ks == [] then [] else Insert(ks[0], SortByValue(ks[1..]))
  }

  /** The `for…in` order of an object whose keys were first set in the order
      `keys`. */
  function PropertyOrder(keys: seq<string>): seq<string> {
    SortByValue(IndexKeys(keys)) + OtherKeys(keys)
  }

  predicate Ascending(s: seq<string>) {
    forall i, j :: 0 <= i < j < |s| ==> IndexValue(s[i]) <= IndexValue(s[j])
  }

  lemma {:induction false} InsertPermutes(k: string, s: seq<string>)
    ensures multiset(Insert(k, s)) == multiset(s) + multiset{k}
  {
    if s != [] && IndexValue(k) > IndexValue(s[0]) {
      InsertPermutes(k, s[1..]);
      assert s == [s[0]] + s[1..];
    }
  }

  lemma {:induction false} InsertMembers(k: string, s: seq<string>)
    ensures forall x :: x in Insert(k, s) <==> x == k || x in s
  {
    if s != [] && IndexValue(k) > IndexValue(s[0]) {
      InsertMembers(k, s[1..]);
      assert s == [s[0]] + s[1..];
    }
  }

  lemma {:induction false} InsertAscending(k: string, s: seq<string>)
    requires Ascending(s)
    ensures Ascending(Insert(k, s))
  {
    if s != [] && IndexValue(k) > IndexValue(s[0]) {
      var t := Insert(k, s[1..]);
      assert Ascending(s[1..]);
      InsertAscending(k, s[1..]);
      InsertMembers(k, s[1..]);
      forall i | 0 <= i < |t| ensures IndexValue(s[0]) <= IndexValue(t[i]) {
        assert t[i] == k || t[i] in s[1..];
      }
      assert Insert(k, s) == [s[0]] + t;
    }
  }

  lemma {:induction false} SortByValueSpec(ks: seq<string>)
    ensures multiset(SortByValue(ks)) == multiset(ks)
    ensures Ascending(SortByValue(ks))
  {
    if ks != [] {
      SortByValueSpec(ks[1..]);
      InsertPermutes(ks[0], SortByValue(ks[1..]));
      InsertAscending(ks[0], SortByValue(ks[1..]));
      assert ks == [ks[0]] + ks[1..];
    }
  }

  lemma {:induction false} SplitPermutes(keys: seq<string>)
    ensures multiset(IndexKeys(keys)) + multiset(OtherKeys(keys)) == multiset(keys)
  {
    if keys != [] {
      SplitPermutes(Init(keys));
      SplitStep(keys);
    }
  }

  /** The last key goes to exactly one of the two parts. */
  lemma SplitStep(keys: seq<string>)
    requires keys != []
    ensures multiset(IndexKeys(keys)) + multiset(OtherKeys(keys))
         == multiset(IndexKeys(Init(keys))) + multiset(OtherKeys(Init(keys))) + multiset{Last(keys)}
    ensures multiset(keys) == multiset(Init(keys)) + multiset{Last(keys)}
  {
    assert keys == Init(keys) + [Last(keys)];
  }

  lemma KeysStep(ks: seq<string>, k: string)
    ensures IndexKeys(ks + [k]) == IndexKeys(ks) + if IsArrayIndex(k) then [k] else []
    ensures OtherKeys(ks + [k]) == OtherKeys(ks) + if IsArrayIndex(k) then [] else [k]
  {
    assert Init(ks + [k]) == ks && Last(ks + [k]) == k;
  }

  lemma {:induction false} IndexKeysAreIndices(keys: seq<string>)
    ensures forall k :: k in IndexKeys(keys) ==> IsArrayIndex(k)
  {
    if keys != [] {
      IndexKeysAreIndices(Init(keys));
    }
  }

  lemma {:induction false} OtherKeysAreNot(keys: seq<string>)
    ensures forall k :: k in OtherKeys(keys) ==> !IsArrayIndex(k)
  {
    if keys != [] {
      OtherKeysAreNot(Init(keys));
    }
  }

  /** The keys that are not array indices keep their relative order: taking
      them out of two runs of keys and joining the results is the same as
      taking them out of the joined runs. */
  lemma {:induction false} OtherKeysAppend(a: seq<string>, b: seq<string>)
    ensures OtherKeys(a + b) == OtherKeys(a) + OtherKeys(b)
  {
    if b != [] {
      assert Init(a + b) == a + Init(b) && Last(a + b) == Last(b);
      OtherKeysAppend(a, Init(b));
    } else {
      assert a + b == a;
    }
  }

  /** `for…in` visits every key exactly once: its order is a permutation of
      the insertion order. */
  lemma PropertyOrderPermutes(keys: seq<string>)
    ensures multiset(PropertyOrder(keys)) == multiset(keys)
  {
    var s, o := SortByValue(IndexKeys(keys)), OtherKeys(keys);
    SplitPermutes(keys);
    SortByValueSpec(IndexKeys(keys));
    assert multiset(s + o) == multiset(s) + multiset(o);
  }

  /** Array indices come first, in ascending numeric order; the other keys
      follow, in insertion order. */
  lemma PropertyOrderShape(keys: seq<string>)
    ensures var r, n := PropertyOrder(keys), |IndexKeys(keys)|;
      && n <= |r|
      && (forall i :: 0 <= i < n ==> IsArrayIndex(r[i]))
      && Ascending(r[..n])
      && (forall i :: n <= i < |r| ==> !IsArrayIndex(r[i]))
      && r[n..] == OtherKeys(keys)
  {
    SortedIndexKeys(keys);
    OtherKeysAreNot(keys);
    JoinShape(SortByValue(IndexKeys(keys)), OtherKeys(keys));
  }

  /** The sorted index keys: as many as there are index keys, ascending,
      and all of them array indices. */
  lemma SortedIndexKeys(keys: seq<string>)
    ensures var ks, s := IndexKeys(keys), SortByValue(IndexKeys(keys));
      && |s| == |ks| && Ascending(s) && forall x :: x in s ==> IsArrayIndex(x)
  {
    var ks := IndexKeys(keys);
    var s := SortByValue(ks);
    SortByValueSpec(ks);
    assert |s| == |ks| by {
      assert |multiset(s)| == |multiset(ks)|;
    }
    IndexKeysAreIndices(keys);
    forall x | x in s ensures IsArrayIndex(x) {
      assert x in multiset(ks);
    }
  }

  /** Where an ascending run of array indices is followed by other keys. */
  lemma JoinShape(s: seq<string>, o: seq<string>)
    requires Ascending(s) && forall x :: x in s ==> IsArrayIndex(x)
    requires forall x :: x in o ==> !IsArrayIndex(x)
    ensures var r, n := s + o, |s|;
      && (forall i :: 0 <= i < n ==> IsArrayIndex(r[i]))
      && Ascending(r[..n])
      && (forall i :: n <= i < |r| ==> !IsArrayIndex(r[i]))
      && r[n..] == o
  {
    var r := s + o;
    assert r[..|s|] == s && r[|s|..] == o;
    forall i | 0 <= i < |s| ensures IsArrayIndex(r[i]) {
      assert r[i] == s[i] && s[i] in s;
    }
    forall i | |s| <= i < |r| ensures !IsArrayIndex(r[i]) {
      assert r[i] == o[i - |s|] && o[i - |s|] in o;
    }
  }

  /** Without array-index keys the order is exactly the insertion order. */
  lemma {:induction false} PropertyOrderPlain(keys: seq<string>)
    requires forall k :: k in keys ==> !IsArrayIndex(k)
    ensures PropertyOrder(keys) == keys
  {
    PlainKeys(keys);
  }

  lemma {:induction false} PlainKeys(keys: seq<string>)
    requires forall k :: k in keys ==> !IsArrayIndex(k)
    ensures IndexKeys(keys) == [] && OtherKeys(keys) == keys
  {
    if keys != [] {
      assert keys == Init(keys) + [Last(keys)];
      PlainKeys(Init(keys));
    }
  }

  /** Membership, length and distinctness survive the reordering. */
  lemma PropertyOrderMembers(keys: seq<string>)
    ensures forall k :: k in PropertyOrder(keys) <==> k in keys
    ensures |PropertyOrder(keys)| == |keys|
    ensures Distinct(keys) ==> Distinct(PropertyOrder(keys))
  {
    var r := PropertyOrder(keys);
    PropertyOrderPermutes(keys);
    assert forall k :: k in r <==> k in multiset(r);
    assert forall k :: k in keys <==> k in multiset(keys);
    assert |r| == |multiset(r)|;
    if Distinct(keys) {
      forall i, j | 0 <= i < j < |r| ensures r[i] != r[j] {
        if r[i] == r[j] {
          DistinctCount(keys, r[i]);
          TwiceCount(r, i, j);
        }
      }
    }
  }

  lemma TwiceCount(r: seq<string>, i: nat, j: nat)
    requires i < j < |r| && r[i] == r[j]
    ensures multiset(r)[r[i]] >= 2
  {
    assert r == r[..i] + [r[i]] + r[i + 1..j] + [r[j]] + r[j + 1..];
  }

  /** In a sequence without repeats every element occurs once. */
  lemma {:induction false} DistinctCount(s: seq<string>, x: string)
    requires Distinct(s)
    ensures multiset(s)[x] <= 1
  {
    if s != [] {
      assert s == Init(s) + [Last(s)];
      assert Distinct(Init(s));
      DistinctCount(Init(s), x);
      if x == Last(s) {
        assert x !in Init(s);
      }
    }
  }

  /** Keys set in the order `name`, "12", "3" are visited as "3", "12",
      `name`: a promoter whose name looks like a number jumps ahead. */
  lemma IndexKeysFirst(name: string)
    requires !IsArrayIndex(name)
    ensures PropertyOrder([name, "12", "3"]) == ["3", "12", name]
  {
    var k12, k3 := "12", "3";
    SmallIndices();
    KeysStep([], name);
    assert [] + [name] == [name];
    KeysStep([name], k12);
    assert [name] + [k12] == [name, k12];
    KeysStep([name, k12], k3);
    assert [name, k12] + [k3] == [name, k12, k3];
    assert IndexKeys([name, k12, k3]) == [k12, k3] && OtherKeys([name, k12, k3]) == [name];
    assert SortByValue([k12, k3]) == Insert(k12, SortByValue([k3])) by {
      assert [k12, k3][1..] == [k3];
    }
    assert SortByValue([k3]) == [k3] by {
      assert [k3][1..] == [];
    }
    assert Insert(k12, [k3]) == [k3] + Insert(k12, []);
  }

  /** "12" and "3" are array indices, and 3 comes before 12. */
  lemma SmallIndices()
    ensures IsArrayIndex("12") && IsArrayIndex("3") && IndexValue("3") < IndexValue("12")
  {
    var k12, k3 := "12", "3";
    assert DecimalValue(k12[..1]) == 1;
    assert DecimalValue(k12) == 12;
    assert DecimalValue(k3) == 3;
  }
}
