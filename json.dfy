/** Parsed JSON values as the core receives them from HTTP replies and stores them
    in its configuration. An object is the list of its members in source order; as
    with `JSON.parse`, a repeated name keeps its first position and its last value.
    Its keys are listed in the order ECMAScript gives an ordinary object's own
    properties: array indices ascending, then the other names in creation order. */
module Json {
  import opened Wrappers
  import opened Strings

  datatype Json =
    | JNull
    | JBool(b: bool)
    | JNumber(n: int)
    | JString(s: string)
    | JArray(items: seq<Json>)
    | JObject(members: seq<(string, Json)>)

  /** Distinct names in order of first appearance: the order in which `JSON.parse`
      creates the properties of an object. */
  function CreationOrder(members: seq<(string, Json)>): (r: seq<string>)
    ensures Distinct(r)
    ensures forall k :: k in r <==> exists i :: 0 <= i < |members| && members[i].0 == k
  {
    if members == [] then []
    else
      var front := members[..|members| - 1];
      var k := members[|members| - 1].0;
      var r := CreationOrder(front);
      assert forall i :: 0 <= i < |front| ==> front[i] == members[i];
      if k in r then r else r + [k]
  }

  predicate Distinct(ks: seq<string>) {
    forall i, j :: 0 <= i < j < |ks| ==> ks[i] != ks[j]
  }

  // ---------------------------------------------------------------------------
  // property order

  /** An array index: the decimal rendering, without leading zeros, of a number
      below 2^32 - 1 ("0", "7", "2020"; not "07", "-1" or "4294967295"). */
  predicate IsIndexKey(k: string) {
    k != [] && (forall i :: 0 <= i < |k| ==> '0' <= k[i] <= '9') &&
    DecimalValue(k) < 0xFFFF_FFFF && NatToString(DecimalValue(k)) == k
  }

  predicate IsNamedKey(k: string) {
    !IsIndexKey(k)
  }

  /** The number an index key stands for (0 for a key that is not all digits). */
  function IndexValue(k: string): nat {
    if forall i :: 0 <= i < |k| ==> '0' <= k[i] <= '9' then DecimalValue(k) else 0
  }

  /** Different index keys stand for different numbers. */
  lemma {:induction false} IndexValuesDiffer(a: string, b: string)
    requires IsIndexKey(a) && IsIndexKey(b) && a != b
    ensures IndexValue(a) != IndexValue(b)
  {
    assert NatToString(IndexValue(a)) == a && NatToString(IndexValue(b)) == b;
  }

  /** The numbers below 2^32 - 1 render to index keys. */
  lemma {:induction false} NumberIsIndexKey(n: nat)
    requires n < 0xFFFF_FFFF
    ensures IsIndexKey(NatToString(n)) && IndexValue(NatToString(n)) == n
  {
    DecimalRoundTrip(n);
  }

  /** The keys satisfying `wanted`, in their order. */
  function KeepIf(ks: seq<string>, wanted: string -> bool): (r: seq<string>)
    ensures |r| <= |ks|
    ensures forall k :: k in r <==> k in ks && wanted(k)
  {
    if ks == [] then []
    else (if wanted(ks[0]) then [ks[0]] else []) + KeepIf(ks[1..], wanted)
  }

  lemma {:induction false} KeepIfConcat(a: seq<string>, b: seq<string>, wanted: string -> bool)
    ensures KeepIf(a + b, wanted) == KeepIf(a, wanted) + KeepIf(b, wanted)
  {
    if a != [] {
      assert (a + b)[1..] == a[1..] + b;
      KeepIfConcat(a[1..], b, wanted);
    } else {
      assert a + b == b;
    }
  }

  lemma {:induction false} KeepIfAll(ks: seq<string>, wanted: string -> bool)
    requires forall i :: 0 <= i < |ks| ==> wanted(ks[i])
    ensures KeepIf(ks, wanted) == ks
  {
    if ks != [] {
      KeepIfAll(ks[1..], wanted);
    }
  }

  lemma {:induction false} KeepIfNone(ks: seq<string>, wanted: string -> bool)
    requires forall i :: 0 <= i < |ks| ==> !wanted(ks[i])
    ensures KeepIf(ks, wanted) == []
  {
    if ks != [] {
      KeepIfNone(ks[1..], wanted);
    }
  }

  lemma {:induction false} KeepIfDistinct(ks: seq<string>, wanted: string -> bool)
    requires Distinct(ks)
    ensures Distinct(KeepIf(ks, wanted))
  {
    if ks != [] {
      KeepIfDistinct(ks[1..], wanted);
      assert ks[0] !in ks[1..];
    }
  }

  /** Taking two filters one after the other in either order gives the same keys. */
  lemma {:induction false} KeepIfCommute(ks: seq<string>, f: string -> bool, g: string -> bool)
    ensures KeepIf(KeepIf(ks, f), g) == KeepIf(KeepIf(ks, g), f)
  {
    if ks != [] {
      var x := ks[0];
      KeepIfCommute(ks[1..], f, g);
      var hf := if f(x) then [x] else [];
      var hg := if g(x) then [x] else [];
      KeepIfConcat(hf, KeepIf(ks[1..], f), g);
      KeepIfConcat(hg, KeepIf(ks[1..], g), f);
    }
  }

  /** Strictly ascending by the value `v` gives each key. */
  predicate AscendingBy(ks: seq<string>, v: string -> nat) {
    forall i, j :: 0 <= i < j < |ks| ==> v(ks[i]) < v(ks[j])
  }

  /** Puts a key into a list ascending by `v` at its place. */
  function InsertBy(k: string, ks: seq<string>, v: string -> nat): (r: seq<string>)
    ensures |r| == |ks| + 1
    ensures forall x :: x in r <==> x == k || x in ks
  {
    if ks == [] || v(k) <= v(ks[0]) then [k] + ks
    else [ks[0]] + InsertBy(k, ks[1..], v)
  }

  /** A key below every key of an ascending list can go in front of it. */
  lemma {:induction false} AscendingCons(x: string, ks: seq<string>, v: string -> nat)
    requires AscendingBy(ks, v)
    requires forall j :: 0 <= j < |ks| ==> v(x) < v(ks[j])
    ensures AscendingBy([x] + ks, v)
  {
    var r := [x] + ks;
    assert forall j :: 1 <= j < |r| ==> r[j] == ks[j - 1];
  }

  /** Inserting a key whose value no key of the list has keeps the list ascending. */
  lemma {:induction false} InsertByAscending(k: string, ks: seq<string>, v: string -> nat)
    requires AscendingBy(ks, v)
    requires forall j :: 0 <= j < |ks| ==> v(ks[j]) != v(k)
    ensures AscendingBy(InsertBy(k, ks, v), v)
  {
    if ks == [] {
      AscendingCons(k, ks, v);
    } else if v(k) > v(ks[0]) {
      var rest := ks[1..];
      InsertByAscending(k, rest, v);
      var t := InsertBy(k, rest, v);
      forall j | 0 <= j < |t| ensures v(ks[0]) < v(t[j]) {
        assert t[j] in t;
        if t[j] != k {
          var m :| 0 <= m < |rest| && rest[m] == t[j];
          assert ks[m + 1] == t[j];
        }
      }
      AscendingCons(ks[0], t, v);
    } else {
      AscendingCons(k, ks, v);
    }
  }

  /** Insertion sort by `v`. */
  function SortBy(ks: seq<string>, v: string -> nat): (r: seq<string>)
    ensures |r| == |ks|
    ensures forall x :: x in r <==> x in ks
  {
    if ks == [] then [] else InsertBy(ks[0], SortBy(ks[1..], v), v)
  }

  /** Keys with pairwise different values come out strictly ascending. */
  lemma {:induction false} SortByAscending(ks: seq<string>, v: string -> nat)
    requires forall i, j :: 0 <= i < j < |ks| ==> v(ks[i]) != v(ks[j])
    ensures AscendingBy(SortBy(ks, v), v)
  {
    if ks != [] {
      var rest := ks[1..];
      assert forall i :: 0 <= i < |rest| ==> rest[i] == ks[i + 1];
      SortByAscending(rest, v);
      var t := SortBy(rest, v);
      forall j | 0 <= j < |t| ensures v(t[j]) != v(ks[0]) {
        assert t[j] in t;
        var m :| 0 <= m < |rest| && rest[m] == t[j];
        assert ks[m + 1] == t[j];
      }
      InsertByAscending(ks[0], t, v);
    }
  }

  /** Sorting a list that is already ascending leaves it as it is. */
  lemma {:induction false} SortBySorted(ks: seq<string>, v: string -> nat)
    requires AscendingBy(ks, v)
    ensures SortBy(ks, v) == ks
  {
    if ks != [] {
      SortBySorted(ks[1..], v);
      if |ks| > 1 {
        assert v(ks[0]) < v(ks[1]);
      }
    }
  }

  /** Index keys in strictly ascending numeric order. */
  predicate AscendingIndices(ks: seq<string>) {
    (forall i :: 0 <= i < |ks| ==> IsIndexKey(ks[i])) && AscendingBy(ks, IndexValue)
  }

  /** The index keys sorted by numeric value. */
  function SortIndices(ks: seq<string>): (r: seq<string>)
    ensures |r| == |ks| && forall x :: x in r <==> x in ks
  {
    SortBy(ks, IndexValue)
  }

  /** Distinct index keys come out strictly ascending. */
  lemma {:induction false} SortIndicesAscending(ks: seq<string>)
    requires forall i :: 0 <= i < |ks| ==> IsIndexKey(ks[i])
    requires Distinct(ks)
    ensures AscendingIndices(SortIndices(ks))
  {
    forall i, j | 0 <= i < j < |ks| ensures IndexValue(ks[i]) != IndexValue(ks[j]) {
      IndexValuesDiffer(ks[i], ks[j]);
    }
    SortByAscending(ks, IndexValue);
    var r := SortIndices(ks);
    forall i | 0 <= i < |r| ensures IsIndexKey(r[i]) {
      assert r[i] in ks;
    }
  }

  /** Sorting keys that are already ascending leaves them as they are. */
  lemma {:induction false} SortIndicesSorted(ks: seq<string>)
    requires AscendingIndices(ks)
    ensures SortIndices(ks) == ks
  {
    SortBySorted(ks, IndexValue);
  }

  /** The order of the own properties of an object created in the order `created`:
      the index keys in ascending numeric order, then the other keys in creation
      order. */
  function PropertyOrder(created: seq<string>): seq<string> {
    SortIndices(KeepIf(created, IsIndexKey)) + KeepIf(created, IsNamedKey)
  }

  /** Ascending index keys followed by other keys: every index key comes before
      every other key, and the index keys ascend. */
  lemma {:induction false} IndexKeysFirst(sorted: seq<string>, named: seq<string>)
    requires AscendingIndices(sorted)
    requires forall j :: 0 <= j < |named| ==> IsNamedKey(named[j])
    ensures var r := sorted + named;
      forall i, j :: 0 <= i < j < |r| && IsIndexKey(r[j]) ==>
        IsIndexKey(r[i]) && IndexValue(r[i]) < IndexValue(r[j])
  {
    var r := sorted + named;
    assert forall j :: |sorted| <= j < |r| ==> r[j] == named[j - |sorted|];
    assert forall i :: 0 <= i < |sorted| ==> r[i] == sorted[i];
  }

  /** Two distinct lists without a common key join into a distinct list. */
  lemma {:induction false} ConcatDistinct(a: seq<string>, b: seq<string>)
    requires Distinct(a) && Distinct(b)
    requires forall k :: k in a ==> k !in b
    ensures Distinct(a + b)
  {
    var r := a + b;
    forall i, j | 0 <= i < j < |r| ensures r[i] != r[j] {
      if j >= |a| {
        assert r[j] == b[j - |a|] && r[j] in b;
        if i < |a| {
          assert r[i] == a[i] && r[i] in a;
        } else {
          assert r[i] == b[i - |a|];
        }
      }
    }
  }

  /** Among distinct keys, the property order is distinct, has the same keys, puts
      every index key before every other key and the index keys in ascending order,
      and keeps the other keys in creation order. */
  lemma {:induction false} PropertyOrderFacts(created: seq<string>)
    requires Distinct(created)
    ensures var r := PropertyOrder(created);
      Distinct(r) &&
      (forall k :: k in r <==> k in created) &&
      (forall i, j :: 0 <= i < j < |r| && IsIndexKey(r[j]) ==>
         IsIndexKey(r[i]) && IndexValue(r[i]) < IndexValue(r[j])) &&
      AscendingIndices(KeepIf(r, IsIndexKey)) &&
      KeepIf(r, IsNamedKey) == KeepIf(created, IsNamedKey)
  {
    var idx := KeepIf(created, IsIndexKey);
    var named := KeepIf(created, IsNamedKey);
    KeepIfDistinct(created, IsIndexKey);
    KeepIfDistinct(created, IsNamedKey);
    SortIndicesAscending(idx);
    var sorted := SortIndices(idx);
    assert forall j :: 0 <= j < |named| ==> IsNamedKey(named[j]) by {
      forall j | 0 <= j < |named| ensures IsNamedKey(named[j]) {
        assert named[j] in named;
      }
    }
    IndexKeysFirst(sorted, named);
    assert Distinct(sorted);
    ConcatDistinct(sorted, named);
    SplitByKind(sorted, named);
  }

  /** Index keys followed by other keys separate again into the two parts. */
  lemma {:induction false} SplitByKind(sorted: seq<string>, named: seq<string>)
    requires forall j :: 0 <= j < |sorted| ==> IsIndexKey(sorted[j])
    requires forall j :: 0 <= j < |named| ==> IsNamedKey(named[j])
    ensures KeepIf(sorted + named, IsIndexKey) == sorted
    ensures KeepIf(sorted + named, IsNamedKey) == named
  {
    KeepIfConcat(sorted, named, IsIndexKey);
    KeepIfConcat(sorted, named, IsNamedKey);
    KeepIfAll(sorted, IsIndexKey);
    KeepIfNone(sorted, IsNamedKey);
    KeepIfNone(named, IsIndexKey);
    KeepIfAll(named, IsNamedKey);
  }

  /** The keys of a parsed object in the order `Object.keys`, `for...in` and object
      spread visit them (see `KeysOrder`). */
  function Keys(members: seq<(string, Json)>): (r: seq<string>)
    ensures Distinct(r)
    ensures forall k :: k in r <==> exists i :: 0 <= i < |members| && members[i].0 == k
  {
    PropertyOrderFacts(CreationOrder(members));
    PropertyOrder(CreationOrder(members))
  }

  /** The keys of an object list its array-index keys first, in ascending numeric
      order, and then its other keys in the order they were first created. */
  lemma {:induction false} KeysOrder(members: seq<(string, Json)>)
    ensures var r := Keys(members);
      (forall i, j :: 0 <= i < j < |r| && IsIndexKey(r[j]) ==>
         IsIndexKey(r[i]) && IndexValue(r[i]) < IndexValue(r[j])) &&
      AscendingIndices(KeepIf(r, IsIndexKey)) &&
      KeepIf(r, IsNamedKey) == KeepIf(CreationOrder(members), IsNamedKey)
  {
    PropertyOrderFacts(CreationOrder(members));
  }

  /** The value of the last member named `k`, or `None` when there is none. */
  function Lookup(members: seq<(string, Json)>, k: string): (r: Option<Json>)
    ensures r.None? <==> forall i :: 0 <= i < |members| ==> members[i].0 != k
  {
    if members == [] then None
    else if members[|members| - 1].0 == k then Some(members[|members| - 1].1)
    else
      var front := members[..|members| - 1];
      assert forall i :: 0 <= i < |front| ==> front[i] == members[i];
      Lookup(front, k)
  }

  /** `v?.[k]` for a property read: undefined on `undefined` and `null`, the member's
      value on an object, undefined on other values (index properties of strings
      and arrays are not modelled). */
  function Member(v: Option<Json>, k: string): Option<Json> {
    match v
    case Some(JObject(ms)) => Lookup(ms, k)
    case _ => None
  }

  /** JavaScript truthiness of a possibly undefined value. */
  predicate Truthy(v: Option<Json>) {
    match v
    case None => false
    case Some(JNull) => false
    case Some(JBool(b)) => b
    case Some(JNumber(n)) => n != 0
    case Some(JString(s)) => s != ""
    case Some(_) => true
  }

  /** `v == null` in JavaScript: undefined or null. */
  predicate IsNullish(v: Option<Json>) {
    v.None? || v == Some(JNull)
  }

  /** `Object.keys(v)` for a value that is not nullish (strings' index keys not modelled). */
  function ObjectKeys(v: Json): seq<string> {
    if v.JObject? then Keys(v.members) else []
  }
}
