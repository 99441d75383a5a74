/** An Elasticsearch index node: its label from a `_cat/indices` line, its column
    children from the index mapping, and the flattening of search hits into a table. */
module EsIndex {
  import opened Wrappers
  import opened Strings
  import opened Json
  import opened NodeCommon
  import opened Files

  /** The index name is the third whitespace-separated field of the info line. */
  function IndexLabel(info: string): (r: Option<string>)
    ensures r.Some? <==> |SplitWs(info)| >= 3
    ensures r.Some? ==> r.value == SplitWs(info)[2]
  {
    var fields := SplitWs(info);
    if |fields| >= 3 then Some(fields[2]) else None
  }

  /** For a line of single-space-separated fields (health, status, index, ...), the
      label is the index field. */
  lemma {:induction false} IndexLabelOfFields(fields: seq<string>)
    requires |fields| >= 3
    requires forall i :: 0 <= i < |fields| ==> fields[i] != [] && NoSpace(fields[i])
    ensures IndexLabel(Join(fields, ' ')) == Some(fields[2])
  {
    SplitWsWords(fields);
  }

  /** The property name an undefined label turns into inside a template string. */
  function LabelKey(name: Option<string>): string {
    name.GetOr("undefined")
  }

  // ---------------------------------------------------------------------------
  // mapping -> columns

  /** A column child: the property name and its mapping. */
  datatype Column = Column(name: string, property: Json)

  /** The mapping request either failed (`err`) or brought a body. */
  datatype MappingReply = Failed(err: string) | Replied(data: Json)

  datatype Children = Columns(columns: seq<Column>) | Placeholder(error: string)

  /** The error of `res.data[label]` on a null body. */
  function NullDataError(name: Option<string>): string {
    "TypeError: Cannot read properties of null (reading '" + LabelKey(name) + "')"
  }

  const NoPropertiesError: string := "TypeError: Cannot convert undefined or null to object"

  /** `mappings[Object.keys(mappings)[0]]?.properties`. An object without members is
      indexed by `undefined`, which finds nothing. */
  function FirstTypeProperties(mappings: Json): (r: Option<Json>)
    ensures mappings.JObject? && Keys(mappings.members) != [] ==>
      r == Member(Lookup(mappings.members, Keys(mappings.members)[0]), "properties")
    ensures !mappings.JObject? || Keys(mappings.members) == [] ==> r.None?
  {
    var keys := ObjectKeys(mappings);
    var first := if keys != [] then Member(Some(mappings), keys[0]) else None;
    Member(first, "properties")
  }

  /** One column per name in `keys`, each with the value the name has in `properties`. */
  function ColumnsFor(properties: seq<(string, Json)>, keys: seq<string>): (r: seq<Column>)
    requires forall i :: 0 <= i < |keys| ==> keys[i] in Keys(properties)
    ensures |r| == |keys|
    ensures forall i :: 0 <= i < |r| ==> r[i].name == keys[i] && Lookup(properties, keys[i]) == Some(r[i].property)
  {
    if keys == [] then []
    else
      assert keys[0] in Keys(properties);
      [Column(keys[0], Lookup(properties, keys[0]).value)] + ColumnsFor(properties, keys[1..])
  }

  /** One column per key of `properties`, in key order. */
  function ColumnsOf(properties: seq<(string, Json)>): (r: seq<Column>)
    ensures |r| == |Keys(properties)|
    ensures forall i :: 0 <= i < |r| ==> r[i].name == Keys(properties)[i]
    ensures forall i :: 0 <= i < |r| ==> Lookup(properties, r[i].name) == Some(r[i].property)
  {
    ColumnsFor(properties, Keys(properties))
  }

  /** `res.data[label]?.mappings`. */
  function MappingsOf(name: Option<string>, data: Json): Option<Json> {
    Member(Member(Some(data), LabelKey(name)), "mappings")
  }

  /** What `getChildren` resolves to, with the properties it stores as a side effect
      (`None` for a path that never reaches the assignment). A failed request gives
      its error as the single placeholder; an index without mappings has no
      children and stores nothing; with mappings, the first type's properties are
      stored and, when they form an object, each of their keys becomes one column,
      in key order, holding that key's mapping. */
  function MappingChildren(name: Option<string>, reply: MappingReply): (r: (Children, Option<Option<Json>>))
    ensures reply.Failed? ==> r == (Placeholder(reply.err), None)
    ensures reply.Replied? && reply.data == JNull ==> r == (Placeholder(NullDataError(name)), None)
    ensures reply.Replied? && reply.data != JNull && !Truthy(MappingsOf(name, reply.data)) ==>
      r == (Columns([]), None)
    ensures reply.Replied? && reply.data != JNull && Truthy(MappingsOf(name, reply.data)) ==>
      var props := FirstTypeProperties(MappingsOf(name, reply.data).value);
      r.1 == Some(props) &&
      (IsNullish(props) ==> r.0 == Placeholder(NoPropertiesError)) &&
      (!IsNullish(props) && props.value.JObject? ==>
        var keys := Keys(props.value.members);
        r.0.Columns? && |r.0.columns| == |keys| &&
        forall i :: 0 <= i < |keys| ==>
          r.0.columns[i].name == keys[i] &&
          Lookup(props.value.members, keys[i]) == Some(r.0.columns[i].property))
    ensures r.0.Placeholder? <==>
      (reply.Failed? || reply.data == JNull ||
       (Truthy(MappingsOf(name, reply.data)) && IsNullish(FirstTypeProperties(MappingsOf(name, reply.data).value))))
  {
    match reply
    case Failed(err) => (Placeholder(err), None)
    case Replied(data) =>
      if data == JNull then (Placeholder(NullDataError(name)), None)
      else
        var mappings := MappingsOf(name, data);
        if !Truthy(mappings) then (Columns([]), None)
        else
          var properties := FirstTypeProperties(mappings.value);
          if IsNullish(properties) then (Placeholder(NoPropertiesError), Some(properties))
          else if properties.value.JObject? then (Columns(ColumnsOf(properties.value.members)), Some(properties))
          else (Columns([]), Some(properties))
  }

  // ---------------------------------------------------------------------------
  // search hits -> table

  /** A result row: an object literal's members in order; `None` values are undefined. */
  type Row = seq<(string, Option<Json>)>

  function Names(row: Row): (r: seq<string>)
    ensures |r| == |row| && forall i :: 0 <= i < |row| ==> r[i] == row[i].0
  {
    seq(|row|, i requires 0 <= i < |row| => row[i].0)
  }

  /** Gives every member named `k` the value `v`. */
  function Replace(row: Row, k: string, v: Option<Json>): (r: Row)
    ensures |r| == |row|
    ensures forall i :: 0 <= i < |row| ==> r[i].0 == row[i].0
    ensures forall i :: 0 <= i < |row| ==> r[i].1 == if row[i].0 == k then v else row[i].1
  {
    if row == [] then []
    else [(row[0].0, if row[0].0 == k then v else row[0].1)] + Replace(row[1..], k, v)
  }

  /** Setting a member of an object literal: an existing member keeps its place and
      takes the new value, a new one goes at the end. */
  function Assign(row: Row, k: string, v: Option<Json>): (r: Row)
    ensures k in Names(row) ==> |r| == |row|
    ensures k !in Names(row) ==> r == row + [(k, v)]
    ensures |r| >= |row| && forall i :: 0 <= i < |row| ==> r[i].0 == row[i].0
    ensures forall i :: |row| <= i < |r| ==> r[i].0 == k
    ensures forall i :: 0 <= i < |row| && row[i].0 != k ==> r[i] == row[i]
    ensures forall i :: 0 <= i < |r| && r[i].0 == k ==> r[i].1 == v
    ensures k in Names(r)
  {
    if k in Names(row) then Replace(row, k, v)
    else
      var r := row + [(k, v)];
      assert Names(r)[|row|] == k;
      r
  }

  /** `{ ...acc, ...source }` for the members named in `keys`. */
  function SpreadKeys(acc: Row, source: seq<(string, Json)>, keys: seq<string>): (r: Row)
    ensures |r| >= |acc| && forall i :: 0 <= i < |acc| ==> r[i].0 == acc[i].0
    ensures forall i :: |acc| <= i < |r| ==> r[i].0 in keys
    ensures forall i :: 0 <= i < |acc| && acc[i].0 !in keys ==> r[i] == acc[i]
    decreases |keys|
  {
    if keys == [] then acc
    else
      var acc1 := Assign(acc, keys[0], Lookup(source, keys[0]));
      var r := SpreadKeys(acc1, source, keys[1..]);
      assert forall x :: x in keys[1..] ==> x in keys;
      r
  }

  /** Every name in `keys` is a member of `r`, holding the source's value. */
  predicate HoldsSource(r: Row, source: seq<(string, Json)>, keys: seq<string>) {
    (forall k :: k in keys ==> k in Names(r)) &&
    (forall i :: 0 <= i < |r| && r[i].0 in keys ==> r[i].1 == Lookup(source, r[i].0))
  }

  /** After the spread, every key named is a member holding the source value. */
  lemma {:induction false} SpreadKeysValues(acc: Row, source: seq<(string, Json)>, keys: seq<string>)
    ensures HoldsSource(SpreadKeys(acc, source, keys), source, keys)
    decreases |keys|
  {
    if keys != [] {
      var k := keys[0];
      var acc1 := Assign(acc, k, Lookup(source, k));
      var tail := keys[1..];
      SpreadKeysValues(acc1, source, tail);
      var r := SpreadKeys(acc1, source, tail);
      assert r == SpreadKeys(acc, source, keys);
      assert k in Names(acc1);
      var j :| 0 <= j < |acc1| && Names(acc1)[j] == k;
      assert Names(r)[j] == k;
      forall x | x in keys ensures x in Names(r) {
        if x != k {
          assert x in tail;
        }
      }
      forall i | 0 <= i < |r| && r[i].0 in keys
        ensures r[i].1 == Lookup(source, r[i].0)
      {
        if r[i].0 !in tail {
          assert r[i].0 == k;
          assert i < |acc1|;
          assert r[i] == acc1[i];
        }
      }
    }
  }

  /** The spread of a hit's `_source`, whose keys it copies in their property order;
      a source that is not an object adds nothing. */
  function Spread(acc: Row, source: Option<Json>): Row {
    match source
    case Some(JObject(ms)) => SpreadKeys(acc, ms, Keys(ms))
    case _ => acc
  }

  /** The keys of `keys` that are not in `avoid`, in order. */
  function Fresh(keys: seq<string>, avoid: seq<string>): (r: seq<string>)
    ensures forall k :: k in r <==> k in keys && k !in avoid
  {
    if keys == [] then []
    else (if keys[0] in avoid then [] else [keys[0]]) + Fresh(keys[1..], avoid)
  }

  /** Avoiding one more key that does not occur changes nothing. */
  lemma {:induction false} FreshIgnores(keys: seq<string>, avoid: seq<string>, k: string)
    requires k !in keys
    ensures Fresh(keys, avoid + [k]) == Fresh(keys, avoid)
  {
    if keys != [] {
      FreshIgnores(keys[1..], avoid, k);
      assert keys[0] in avoid + [k] <==> keys[0] in avoid;
    }
  }

  /** The members a spread creates: the accumulated ones, with the keys not among
      them added in the order the spread visits them. */
  lemma {:induction false} SpreadNames(acc: Row, source: seq<(string, Json)>, keys: seq<string>)
    requires Distinct(keys)
    ensures Names(SpreadKeys(acc, source, keys)) == Names(acc) + Fresh(keys, Names(acc))
    decreases |keys|
  {
    if keys == [] {
      assert Names(acc) + [] == Names(acc);
    } else {
      var k := keys[0];
      var rest := keys[1..];
      var acc1 := Assign(acc, k, Lookup(source, k));
      assert Distinct(rest) && k !in rest by {
        assert forall i :: 0 <= i < |rest| ==> rest[i] == keys[i + 1];
      }
      SpreadNames(acc1, source, rest);
      AssignNames(acc, k, Lookup(source, k));
      FreshStep(keys, Names(acc));
    }
  }

  /** The members after one assignment: unchanged for a known key, one more at the
      end for a new one. */
  lemma {:induction false} AssignNames(row: Row, k: string, v: Option<Json>)
    ensures k in Names(row) ==> Names(Assign(row, k, v)) == Names(row)
    ensures k !in Names(row) ==> Names(Assign(row, k, v)) == Names(row) + [k]
  {
  }

  /** The first key joins the fresh keys exactly when it is not avoided, and it
      need not be avoided for the rest when it does not recur. */
  lemma {:induction false} FreshStep(keys: seq<string>, n: seq<string>)
    requires keys != [] && keys[0] !in keys[1..]
    ensures keys[0] in n ==>
      n + Fresh(keys[1..], n) == n + Fresh(keys, n)
    ensures keys[0] !in n ==>
      (n + [keys[0]]) + Fresh(keys[1..], n + [keys[0]]) == n + Fresh(keys, n)
  {
    var k := keys[0];
    var rest := keys[1..];
    var f := Fresh(rest, n);
    if k in n {
      assert Fresh(keys, n) == [] + f;
      EmptyConcat(f);
    } else {
      FreshIgnores(rest, n, k);
      assert Fresh(keys, n) == [k] + f;
      ConcatAssoc(n, [k], f);
    }
  }

  const MetaNames: seq<string> := ["_index", "_type", "_id", "_score"]

  predicate NotMeta(k: string) {
    k !in MetaNames
  }

  lemma {:induction false} FreshOfMeta(keys: seq<string>)
    ensures Fresh(keys, MetaNames) == KeepIf(keys, NotMeta)
  {
    if keys != [] {
      FreshOfMeta(keys[1..]);
    }
  }

  /** No meta name is an array index, since each starts with `_`. */
  lemma {:induction false} MetaNamesAreNamed()
    ensures forall i :: 0 <= i < |MetaNames| ==> IsNamedKey(MetaNames[i])
    ensures Distinct(MetaNames)
  {
    forall i | 0 <= i < |MetaNames| ensures IsNamedKey(MetaNames[i]) {
      assert MetaNames[i][0] == '_';
    }
  }

  /** `{ _index, _type, _id, _score, ...hit._source }` for a hit that is an object. */
  function RowOf(hit: Json): Row {
    var h := Some(hit);
    var meta := [("_index", Member(h, "_index")), ("_type", Member(h, "_type")),
                 ("_id", Member(h, "_id")), ("_score", Member(h, "_score"))];
    Spread(meta, Member(h, "_source"))
  }

  /** The keys `for...in` visits on `hit._source`. */
  function SourceKeys(hit: Json): seq<string> {
    var src := Member(Some(hit), "_source");
    if src.Some? && src.value.JObject? then Keys(src.value.members) else []
  }

  /** The order in which `Object.keys` lists the members of a row. */
  function RowKeys(row: Row): seq<string> {
    PropertyOrder(Names(row))
  }

  /** The members of a row are created as the four meta members followed by the
      source keys that are not meta names, in the source's property order, and every
      source key holds the source value, so a source key named like a meta member
      overrides that member in its place. Listed by `Object.keys`, the row has the
      source's array-index keys first, then the meta members, then the source's
      other keys. */
  lemma {:induction false} RowShape(hit: Json)
    ensures Names(RowOf(hit)) == MetaNames + KeepIf(SourceKeys(hit), NotMeta)
    ensures RowKeys(RowOf(hit)) ==
      KeepIf(SourceKeys(hit), IsIndexKey) + (MetaNames + KeepIf(KeepIf(SourceKeys(hit), IsNamedKey), NotMeta))
    ensures forall i :: 0 <= i < 4 && MetaNames[i] !in SourceKeys(hit) ==>
      RowOf(hit)[i].1 == Member(Some(hit), MetaNames[i])
    ensures forall k :: k in SourceKeys(hit) ==>
      k in Names(RowOf(hit)) &&
      forall i :: 0 <= i < |RowOf(hit)| && RowOf(hit)[i].0 == k ==>
        RowOf(hit)[i].1 == Member(Member(Some(hit), "_source"), k)
  {
    RowNames(hit);
    RowValues(hit);
  }

  /** The creation order and the `Object.keys` order of a row's members. */
  lemma {:induction false} RowNames(hit: Json)
    ensures Names(RowOf(hit)) == MetaNames + KeepIf(SourceKeys(hit), NotMeta)
    ensures RowKeys(RowOf(hit)) ==
      KeepIf(SourceKeys(hit), IsIndexKey) + (MetaNames + KeepIf(KeepIf(SourceKeys(hit), IsNamedKey), NotMeta))
  {
    var h := Some(hit);
    var meta := [("_index", Member(h, "_index")), ("_type", Member(h, "_type")),
                 ("_id", Member(h, "_id")), ("_score", Member(h, "_score"))];
    assert Names(meta) == MetaNames;
    var src := Member(h, "_source");
    var sk := SourceKeys(hit);
    FreshOfMeta(sk);
    if src.Some? && src.value.JObject? {
      SpreadNames(meta, src.value.members, sk);
      KeysOrder(src.value.members);
    } else {
      assert Fresh(sk, MetaNames) == [];
      assert RowOf(hit) == meta;
      assert MetaNames + [] == MetaNames;
    }
    assert Names(RowOf(hit)) == MetaNames + KeepIf(sk, NotMeta);
    RowKeysOrder(sk);
  }

  /** The meta members keep their values unless the source overrides them, and
      every source key holds the source value. */
  lemma {:induction false} RowValues(hit: Json)
    ensures forall i :: 0 <= i < 4 && MetaNames[i] !in SourceKeys(hit) ==>
      RowOf(hit)[i].1 == Member(Some(hit), MetaNames[i])
    ensures forall k :: k in SourceKeys(hit) ==>
      k in Names(RowOf(hit)) &&
      forall i :: 0 <= i < |RowOf(hit)| && RowOf(hit)[i].0 == k ==>
        RowOf(hit)[i].1 == Member(Member(Some(hit), "_source"), k)
  {
    var h := Some(hit);
    var meta := [("_index", Member(h, "_index")), ("_type", Member(h, "_type")),
                 ("_id", Member(h, "_id")), ("_score", Member(h, "_score"))];
    var src := Member(h, "_source");
    if src.Some? && src.value.JObject? {
      SpreadKeysValues(meta, src.value.members, Keys(src.value.members));
    }
  }

  /** The property order of the meta names followed by the non-meta keys of a
      property-ordered key list. */
  lemma {:induction false} RowKeysOrder(sk: seq<string>)
    requires Distinct(sk) && AscendingIndices(KeepIf(sk, IsIndexKey))
    ensures PropertyOrder(MetaNames + KeepIf(sk, NotMeta)) ==
      KeepIf(sk, IsIndexKey) + (MetaNames + KeepIf(KeepIf(sk, IsNamedKey), NotMeta))
  {
    RowIndexKeys(sk);
    RowNamedKeys(sk);
    SortIndicesSorted(KeepIf(sk, IsIndexKey));
  }

  /** No meta name is an index key, so the index keys of a row are the source's. */
  lemma {:induction false} RowIndexKeys(sk: seq<string>)
    ensures KeepIf(MetaNames + KeepIf(sk, NotMeta), IsIndexKey) == KeepIf(sk, IsIndexKey)
  {
    var w := KeepIf(sk, NotMeta);
    MetaNamesAreNamed();
    KeepIfConcat(MetaNames, w, IsIndexKey);
    KeepIfNone(MetaNames, IsIndexKey);
    var idx := KeepIf(sk, IsIndexKey);
    KeepIfCommute(sk, NotMeta, IsIndexKey);
    assert forall j :: 0 <= j < |idx| ==> NotMeta(idx[j]) by {
      forall j | 0 <= j < |idx| ensures NotMeta(idx[j]) {
        assert idx[j] in idx;
      }
    }
    KeepIfAll(idx, NotMeta);
  }

  /** Every meta name is a named key, so they lead the named keys of a row. */
  lemma {:induction false} RowNamedKeys(sk: seq<string>)
    ensures KeepIf(MetaNames + KeepIf(sk, NotMeta), IsNamedKey) ==
      MetaNames + KeepIf(KeepIf(sk, IsNamedKey), NotMeta)
  {
    var w := KeepIf(sk, NotMeta);
    MetaNamesAreNamed();
    KeepIfConcat(MetaNames, w, IsNamedKey);
    KeepIfAll(MetaNames, IsNamedKey);
    KeepIfCommute(sk, NotMeta, IsNamedKey);
  }

  /** The columns of the result table: none without hits, otherwise the meta
      fields followed by the first hit's source keys. */
  function FieldsOf(hits: seq<Json>): seq<string> {
    if hits == [] then [] else MetaNames + SourceKeys(hits[0])
  }

  /** A source with a name key and an index key: the index key comes after the meta
      names among the fields, but before them among the row's keys. */
  lemma {:induction false} IndexKeyOrderExample()
    ensures var hit := JObject([("_source", JObject([("a", JNumber(1)), ("7", JNumber(2))]))]);
      FieldsOf([hit]) == MetaNames + ["7", "a"] &&
      RowKeys(RowOf(hit)) == ["7"] + MetaNames + ["a"]
  {
    var ms := [("a", JNumber(1)), ("7", JNumber(2))];
    var hit := JObject([("_source", JObject(ms))]);
    ExampleKeys();
    assert SourceKeys(hit) == ["7", "a"];
    assert FieldsOf([hit]) == MetaNames + ["7", "a"];
    RowShape(hit);
    ExampleFilters();
    assert KeepIf(SourceKeys(hit), IsIndexKey) == ["7"];
    assert KeepIf(KeepIf(SourceKeys(hit), IsNamedKey), NotMeta) == ["a"];
    ConcatAssoc(["7"], MetaNames, ["a"]);
  }

  /** `Object.keys` of `{"a": 1, "7": 2}` is `["7", "a"]`. */
  lemma {:induction false} ExampleKeys()
    ensures Keys([("a", JNumber(1)), ("7", JNumber(2))]) == ["7", "a"]
  {
    ExampleCreation();
    ExampleFilters();
    assert SortIndices(["7"]) == ["7"];
  }

  /** The keys in the order they were created. */
  lemma {:induction false} ExampleCreation()
    ensures CreationOrder([("a", JNumber(1)), ("7", JNumber(2))]) == ["a", "7"]
  {
    var ms := [("a", JNumber(1)), ("7", JNumber(2))];
    assert ms[..1] == [("a", JNumber(1))];
    assert CreationOrder(ms[..1]) == ["a"];
  }

  lemma {:induction false} ExampleFilters()
    ensures KeepIf(["a", "7"], IsIndexKey) == ["7"] && KeepIf(["a", "7"], IsNamedKey) == ["a"]
    ensures KeepIf(["7", "a"], IsIndexKey) == ["7"] && KeepIf(["7", "a"], IsNamedKey) == ["a"]
    ensures KeepIf(["a"], NotMeta) == ["a"]
  {
    ExampleNameFirst();
    ExampleIndexFirst();
    assert ["a"][1..] == [];
  }

  lemma {:induction false} ExampleNameFirst()
    ensures KeepIf(["a", "7"], IsIndexKey) == ["7"] && KeepIf(["a", "7"], IsNamedKey) == ["a"]
  {
    ExampleKinds();
    assert ["a", "7"][1..] == ["7"] && ["7"][1..] == [];
  }

  lemma {:induction false} ExampleIndexFirst()
    ensures KeepIf(["7", "a"], IsIndexKey) == ["7"] && KeepIf(["7", "a"], IsNamedKey) == ["a"]
  {
    ExampleKinds();
    assert ["7", "a"][1..] == ["a"] && ["a"][1..] == [];
  }

  /** "7" is an array index and "a" is not. */
  lemma {:induction false} ExampleKinds()
    ensures IsIndexKey("7") && !IsIndexKey("a")
  {
    assert DecimalValue("7") == 7 by {
      assert "7"[..0] == [];
    }
    assert "a"[0] == 'a';
  }

  /** The search request body. */
  const SearchRequest: Json :=
    JObject([("from", JNumber(0)), ("size", JNumber(10)),
             ("query", JObject([("match_all", JObject([]))]))])

  /** The table `loadData` sends: field names and rows. */
  datatype Table = Table(fields: seq<string>, rows: seq<Row>)

  /** The error `data.hits.hits.map(...)` throws on a reply without a hit array. */
  function NoHitsError(data: Json): string {
    var hits := Member(Some(data), "hits");
    if data == JNull then "TypeError: Cannot read properties of null (reading 'hits')"
    else if hits.None? then "TypeError: Cannot read properties of undefined (reading 'hits')"
    else if hits == Some(JNull) then "TypeError: Cannot read properties of null (reading 'hits')"
    else
      var list := Member(hits, "hits");
      if list.None? then "TypeError: Cannot read properties of undefined (reading 'map')"
      else if list == Some(JNull) then "TypeError: Cannot read properties of null (reading 'map')"
      else "TypeError: data.hits.hits.map is not a function"
  }

  /** A null first hit fails in the field loop, which reads `_source` first; a later
      null hit fails in the row literal, which reads `_index` first. */
  const NullSourceError: string := "TypeError: Cannot read properties of null (reading '_source')"
  const NullHitError: string := "TypeError: Cannot read properties of null (reading '_index')"

  /** `data.hits.hits`, when it is an array. */
  function HitsOf(data: Json): Option<seq<Json>> {
    var hits := Member(Member(Some(data), "hits"), "hits");
    if hits.Some? && hits.value.JArray? then Some(hits.value.items) else None
  }

  /** `xs.map(f)`. */
  function MapSeq<A, B>(xs: seq<A>, f: A -> B): (r: seq<B>)
    ensures |r| == |xs|
    ensures forall i :: 0 <= i < |xs| ==> r[i] == f(xs[i])
  {
    if xs == [] then []
    else
      var front := xs[..|xs| - 1];
      assert forall i :: 0 <= i < |front| ==> front[i] == xs[i];
      MapSeq(front, f) + [f(xs[|xs| - 1])]
  }

  /** The rows of the hits, one per hit, in order. */
  function RowsOf(hits: seq<Json>): (r: seq<Row>)
    ensures |r| == |hits|
    ensures forall i :: 0 <= i < |hits| ==> r[i] == RowOf(hits[i])
  {
    MapSeq(hits, RowOf)
  }

  /** Whether some hit is null, scanning from the end. */
  predicate HasNullHit(hits: seq<Json>)
    ensures HasNullHit(hits) <==> JNull in hits
  {
    if hits == [] then false
    else
      assert hits == hits[..|hits| - 1] + [hits[|hits| - 1]];
      hits[|hits| - 1].JNull? || HasNullHit(hits[..|hits| - 1])
  }

  /** The table of a hit array: the rows are the hits' `RowOf`, and the fields come
      from the first hit only; a null hit throws. */
  function FlattenSpec(hits: seq<Json>): (r: Result<Table>)
    ensures r.Err? <==> JNull in hits
    ensures r.Err? ==> r.message == if hits[0].JNull? then NullSourceError else NullHitError
    ensures r.Ok? ==> r.value.fields == FieldsOf(hits) && r.value.rows == RowsOf(hits)
  {
    if HasNullHit(hits) then Err(if hits[0].JNull? then NullSourceError else NullHitError)
    else Ok(Table(FieldsOf(hits), RowsOf(hits)))
  }

  /** The fields pushed for the first hit: the meta names, then each source key. */
  method PushFields(hit: Json) returns (fields: seq<string>)
    ensures fields == MetaNames + SourceKeys(hit)
  {
    fields := PushAll(MetaNames, SourceKeys(hit));
  }

  /** `fields.push(key)` for each key in turn. */
  method PushAll(start: seq<string>, keys: seq<string>) returns (fields: seq<string>)
    ensures fields == start + keys
  {
    fields := start;
    for k := 0 to |keys|
      invariant fields == start + keys[..k]
    {
      TakeOneMore(keys, k);
      fields := fields + [keys[k]];
    }
    assert keys[..|keys|] == keys;
  }

  /** The `map` over the hits in `loadData`, with the fields pushed while the list
      is still empty. */
  method Flatten(hits: seq<Json>) returns (table: Result<Table>)
    ensures table == FlattenSpec(hits)
  {
    var fields: seq<string> := [];
    var rows: seq<Row> := [];
    for i := 0 to |hits|
      invariant !HasNullHit(hits[..i])
      invariant i == 0 ==> fields == []
      invariant i > 0 ==> fields == FieldsOf(hits) && |fields| >= 4
      invariant rows == RowsOf(hits[..i])
    {
      assert hits[..i + 1][..i] == hits[..i];
      if hits[i].JNull? {
        assert HasNullHit(hits[..i + 1]);
        return Err(if |fields| == 0 then NullSourceError else NullHitError);
      }
      if |fields| == 0 {
        fields := PushFields(hits[i]);
      }
      rows := rows + [RowOf(hits[i])];
    }
    assert hits[..|hits|] == hits;
    table := Ok(Table(fields, rows));
  }

  /** The text `JSON.stringify(properties, null, 2)` hands on: `stringify` renders a
      stored value, and unset properties give `undefined`, which the template string
      of `record` turns into the text `undefined`. */
  function SourceText(properties: Option<Json>, stringify: Json -> string): (r: string)
    ensures properties.None? ==> r == "undefined"
    ensures properties.Some? ==> r == stringify(properties.value)
  {
    match properties
    case None => "undefined"
    case Some(p) => stringify(p)
  }

  class IndexNode {
    const info: string
    /** The connection type `init(parent)` copies from the parent node. */
    const dbType: DatabaseType
    const labelText: Option<string>
    /** `this.properties`: unset, or what the last mapping lookup found. */
    var properties: Option<Json>

    constructor (info: string, dbType: DatabaseType)
      ensures this.info == info && this.dbType == dbType && labelText == IndexLabel(info) && properties == None
    {
      this.info := info;
      this.dbType := dbType;
      var fields := SplitWs(info);
      labelText := if |fields| >= 3 then Some(fields[2]) else None;
      properties := None;
    }

    /** `getChildren` on the reply to `GET /<label>/_mapping`. */
    method GetChildren(reply: MappingReply) returns (children: Children)
      modifies this`properties
      ensures children == MappingChildren(labelText, reply).0
      ensures MappingChildren(labelText, reply).1.Some? ==> properties == MappingChildren(labelText, reply).1.value
      ensures MappingChildren(labelText, reply).1.None? ==> properties == old(properties)
    {
      if reply.Failed? {
        return Placeholder(reply.err);
      }
      var data := reply.data;
      if data == JNull {
        return Placeholder(NullDataError(labelText));
      }
      var mappings := MappingsOf(labelText, data);
      if Truthy(mappings) {
        var props := FirstTypeProperties(mappings.value);
        properties := props;
        if IsNullish(props) {
          return Placeholder(NoPropertiesError);
        }
        if props.value.JObject? {
          return Columns(ColumnsOf(props.value.members));
        }
        return Columns([]);
      }
      return Columns([]);
    }

    /** `loadData` on the search reply: the request is fixed; the reply's hits become
        rows (see `Flatten`). A reply without a hit array throws and nothing is sent. */
    method LoadData(data: Json) returns (request: Json, table: Result<Table>)
      ensures request == SearchRequest
      ensures HitsOf(data).None? ==> table == Err(NoHitsError(data))
      ensures HitsOf(data).Some? ==> table == FlattenSpec(HitsOf(data).value)
    {
      request := SearchRequest;
      var found := HitsOf(data);
      if found.None? {
        return request, Err(NoHitsError(data));
      }
      table := Flatten(found.value);
    }

    /** `showSource`: the mapping is fetched only when no properties are stored yet;
        the stored properties afterwards (`shown`) are rendered by `stringify` and
        recorded as `source.json` through `showSQLTextDocument`, in write mode;
        `uidFor` is the node's `getUid`. */
    method ShowSource(reply: MappingReply, fm: FileManager, uidFor: bool -> string, stringify: Json -> string)
      returns (shown: Option<Json>, r: Result<string>)
      modifies this`properties, fm`files, fm`dirs
      ensures Truthy(old(properties)) ==> properties == old(properties) && shown == old(properties)
      ensures !Truthy(old(properties)) && MappingChildren(labelText, reply).1.Some? ==>
        shown == properties && properties == MappingChildren(labelText, reply).1.value
      ensures !Truthy(old(properties)) && MappingChildren(labelText, reply).1.None? ==>
        shown == properties && properties == old(properties)
      ensures var o := fm.RecordOutcome(old(fm.files), old(fm.dirs),
                                        fm.SqlDocumentName(dbType, uidFor, Some("source.json")),
                                        SourceText(shown, stringify), Some(Write));
        r == o.result && fm.files == o.files && fm.dirs == o.dirs
    {
      if !Truthy(properties) {
        var _ := GetChildren(reply);
      }
      shown := properties;
      r := fm.ShowSqlTextDocument(dbType, uidFor, SourceText(shown, stringify), Some("source.json"), None);
    }
  }
}
