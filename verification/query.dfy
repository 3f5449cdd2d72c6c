/** The query expression tree used to search for groups and stems: two
    leaf predicates combined by AND, OR and MINUS, and its compilation to
    the service's tagged filter map.

    `ToJson` is the serialisation as the library writes it: a binary node
    builds its map around the operand nodes themselves and then returns
    nothing. `FixedToJson` is the serialisation the library evidently
    intends, in which a binary node nests its operands' filter maps. */
module Queries {
  import opened Common
  import Enums

  datatype Query =
    | FindByStemName(stemName: string, recursive: bool := false)
    | FindByParentStemName(parentStemName: string)
    | And(left: Query, right: Query)
    | Or(left: Query, right: Query)
    | Minus(left: Query, right: Query)
  {
    predicate IsBinary()
    {
      And? || Or? || Minus?
    }

    /** `self & other` */
    function Conjoin(other: Query): (r: Query)
      ensures r.And? && r.left == this && r.right == other
      ensures QueryType(r) == "AND"
    {
      And(this, other)
    }

    /** `self | other` */
    function Disjoin(other: Query): (r: Query)
      ensures r.Or? && r.left == this && r.right == other
      ensures QueryType(r) == "OR"
    {
      Or(this, other)
    }

    /** `self - other` */
    function Subtract(other: Query): (r: Query)
      ensures r.Minus? && r.left == this && r.right == other
      ensures QueryType(r) == "MINUS"
    {
      Minus(this, other)
    }
  }

  /** A value in a filter map: a string, a query node stored as it is
      (what a binary node puts in its map), or a nested filter map. */
  datatype FilterValue =
    | Text(s: string)
    | Operand(node: Query)
    | Nested(fields: map<string, FilterValue>)

  /** The class attribute `query_type` of each kind of node. */
  function QueryType(q: Query): (r: string)
    ensures q.And? <==> r == "AND"
    ensures q.Or? <==> r == "OR"
    ensures q.Minus? <==> r == "MINUS"
    ensures q.FindByStemName? <==> r == "FIND_BY_STEM_NAME"
    ensures q.FindByParentStemName? <==> r == "FIND_BY_PARENT_STEM_NAME"
  {
    match q
    case FindByStemName(_, _) => "FIND_BY_STEM_NAME"
    case FindByParentStemName(_) => "FIND_BY_PARENT_STEM_NAME"
    case And(_, _) => "AND"
    case Or(_, _) => "OR"
    case Minus(_, _) => "MINUS"
  }

  /** The key under which a filter carries its type. */
  function TagKey(stemQuery: bool): string
  {
    if stemQuery then "stemQueryFilterType" else "queryFilterType"
  }

  /** The filter's other keys; none of them is a tag key. */
  const StemNameKey := "stemName"
  const StemNameScopeKey := "stemNameScope"
  const ParentStemNameKey := "parentStemName"
  const LeftKey := "queryFilter0"
  const RightKey := "queryFilter1"

  /** `Query.to_json`, the base serialisation: exactly one key, chosen by
      `stemQuery`, holding the node's type. */
  function BaseJson(q: Query, stemQuery: bool): (r: map<string, FilterValue>)
    ensures |r| == 1
    ensures stemQuery ==> "stemQueryFilterType" in r && "queryFilterType" !in r
    ensures !stemQuery ==> "queryFilterType" in r && "stemQueryFilterType" !in r
    ensures forall k :: k in r ==> r[k] == Text(QueryType(q))
  {
    map[TagKey(stemQuery) := Text(QueryType(q))]
  }

  /** The `stemNameScope` a FindByStemName node emits. */
  function ScopeWire(recursive: bool): string
  {
    if recursive then "ALL_IN_SUBTREE" else "ONE_LEVEL"
  }

  /** The map a leaf's `to_json` returns (shared by `ToJson` and `FixedToJson`). */
  function LeafJson(q: Query, stemQuery: bool): (r: map<string, FilterValue>)
    requires !q.IsBinary()
    ensures q.FindByStemName? ==>
      && r.Keys == {TagKey(stemQuery), StemNameKey, StemNameScopeKey}
      && r[StemNameKey] == Text(q.stemName)
      && (r[StemNameScopeKey] == Text("ALL_IN_SUBTREE") <==> q.recursive)
      && (r[StemNameScopeKey] == Text("ONE_LEVEL") <==> !q.recursive)
    ensures q.FindByParentStemName? ==>
      && r.Keys == {TagKey(stemQuery), ParentStemNameKey}
      && r[ParentStemNameKey] == Text(q.parentStemName)
    ensures TagKey(stemQuery) in r && r[TagKey(stemQuery)] == Text(QueryType(q))
  {
    var data := BaseJson(q, stemQuery);
    match q
    case FindByStemName(name, recursive) =>
      data[StemNameKey := Text(name)][StemNameScopeKey := Text(ScopeWire(recursive))]
    case FindByParentStemName(parent) =>
      data[ParentStemNameKey := Text(parent)]
  }

  /** The map `BinaryOperator.to_json` builds: the base map updated with
      the two operand NODES, not their serialisations. */
  function BinaryData(q: Query, stemQuery: bool): (r: map<string, FilterValue>)
    requires q.IsBinary()
    ensures r.Keys == {TagKey(stemQuery), LeftKey, RightKey}
    ensures r[TagKey(stemQuery)] == Text(QueryType(q))
    ensures r[LeftKey] == Operand(q.left) && r[RightKey] == Operand(q.right)
  {
    BaseJson(q, stemQuery)[LeftKey := Operand(q.left)][RightKey := Operand(q.right)]
  }

  /** `to_json` as written: a leaf returns its map; a binary node builds
      `BinaryData` and falls off the end of the method, returning `None`. */
  function ToJson(q: Query, stemQuery: bool := false): (r: Option<map<string, FilterValue>>)
    ensures r.None? <==> q.IsBinary()
    ensures r.Some? ==> r.value == LeafJson(q, stemQuery)
  {
    if q.IsBinary() then None else Some(LeafJson(q, stemQuery))
  }

  /** A filter value that `json.dumps` can serialise: strings and nested
      maps only, never a query node. */
  predicate IsJsonData(v: FilterValue)
  {
    match v
    case Text(_) => true
    case Operand(_) => false
    case Nested(m) => forall k :: k in m ==> IsJsonData(m[k])
  }

  /** The serialisation a binary node evidently intends: the base map with
      the two operands' own serialisations nested under `queryFilter0` and
      `queryFilter1`. Leaves serialise as `ToJson` does. The result is
      pure JSON data at every depth. */
  function FixedToJson(q: Query, stemQuery: bool := false): (r: map<string, FilterValue>)
    ensures IsJsonData(Nested(r))
    ensures TagKey(stemQuery) in r && r[TagKey(stemQuery)] == Text(QueryType(q))
    ensures !q.IsBinary() ==> Some(r) == ToJson(q, stemQuery)
    ensures q.IsBinary() ==> r.Keys == BinaryData(q, stemQuery).Keys
    ensures q.IsBinary() ==>
      && r[LeftKey] == Nested(FixedToJson(q.left, stemQuery))
      && r[RightKey] == Nested(FixedToJson(q.right, stemQuery))
  {
    if q.IsBinary() then
      var left := Nested(FixedToJson(q.left, stemQuery));
      var right := Nested(FixedToJson(q.right, stemQuery));
      var base := BaseJson(q, stemQuery);
      assert TagKey(stemQuery) in base && base[TagKey(stemQuery)].Text?;
      base[LeftKey := left][RightKey := right]
    else
      LeafJson(q, stemQuery)
  }

  /** Reads a leaf filter back into its query node. */
  function ParseLeaf(m: map<string, FilterValue>, tag: FilterValue): Option<Query>
  {
    if tag == Text("FIND_BY_STEM_NAME") then
      if StemNameKey in m && m[StemNameKey].Text? && StemNameScopeKey in m
         && (m[StemNameScopeKey] == Text("ONE_LEVEL") || m[StemNameScopeKey] == Text("ALL_IN_SUBTREE"))
      then Some(FindByStemName(m[StemNameKey].s, m[StemNameScopeKey] == Text("ALL_IN_SUBTREE")))
      else None
    else if tag == Text("FIND_BY_PARENT_STEM_NAME") then
      if ParentStemNameKey in m && m[ParentStemNameKey].Text?
      then Some(FindByParentStemName(m[ParentStemNameKey].s))
      else None
    else None
  }

  /** Combines two parsed operands under a binary tag. */
  function Combine(tag: FilterValue, l: Option<Query>, r: Option<Query>): Option<Query>
  {
    if l.None? || r.None? then None
    else if tag == Text("AND") then Some(And(l.value, r.value))
    else if tag == Text("OR") then Some(Or(l.value, r.value))
    else if tag == Text("MINUS") then Some(Minus(l.value, r.value))
    else None
  }

  /** Reads a filter map back into a query: the inverse of `FixedToJson`. */
  function ParseFilter(m: map<string, FilterValue>, stemQuery: bool): Option<Query>
    decreases Nested(m)
  {
    var tag := TagKey(stemQuery);
    if tag !in m then None
    else if LeftKey in m && m[LeftKey].Nested? && RightKey in m && m[RightKey].Nested? then
      Combine(m[tag], ParseFilter(m[LeftKey].fields, stemQuery), ParseFilter(m[RightKey].fields, stemQuery))
    else
      ParseLeaf(m, m[tag])
  }

  /** Parsing a binary node's intended serialisation parses both operands. */
  lemma ParseBinary(q: Query, stemQuery: bool)
    requires q.IsBinary()
    ensures ParseFilter(FixedToJson(q, stemQuery), stemQuery) ==
      Combine(Text(QueryType(q)), ParseFilter(FixedToJson(q.left, stemQuery), stemQuery),
              ParseFilter(FixedToJson(q.right, stemQuery), stemQuery))
  {
    var m := FixedToJson(q, stemQuery);
    assert m[LeftKey] == Nested(FixedToJson(q.left, stemQuery));
    assert m[RightKey] == Nested(FixedToJson(q.right, stemQuery));
  }

  /** Parsing a leaf's serialisation gives back the leaf. */
  lemma ParseLeafJson(q: Query, stemQuery: bool)
    requires !q.IsBinary()
    ensures ParseFilter(FixedToJson(q, stemQuery), stemQuery) == Some(q)
  {
    var m := FixedToJson(q, stemQuery);
    assert LeftKey !in m;
  }

  /** The intended serialisation loses nothing: parsing it gives back the
      query, so distinct queries serialise to distinct filters. */
  lemma {:induction false} FixedToJsonRoundTrip(q: Query, stemQuery: bool)
    ensures ParseFilter(FixedToJson(q, stemQuery), stemQuery) == Some(q)
  {
    if q.IsBinary() {
      FixedToJsonRoundTrip(q.left, stemQuery);
      FixedToJsonRoundTrip(q.right, stemQuery);
      ParseBinary(q, stemQuery);
    } else {
      ParseLeafJson(q, stemQuery);
    }
  }

  lemma FixedToJsonInjective(p: Query, q: Query, stemQuery: bool)
    requires FixedToJson(p, stemQuery) == FixedToJson(q, stemQuery)
    ensures p == q
  {
    FixedToJsonRoundTrip(p, stemQuery);
    FixedToJsonRoundTrip(q, stemQuery);
  }

  /** As written, serialising any composed query yields no value, and the
      map built along the way holds a query node, which is not JSON data. */
  lemma BinaryToJsonLosesResult(a: Query, b: Query, stemQuery: bool)
    ensures ToJson(a.Conjoin(b), stemQuery).None?
    ensures ToJson(a.Disjoin(b), stemQuery).None?
    ensures ToJson(a.Subtract(b), stemQuery).None?
    ensures !IsJsonData(Nested(BinaryData(a.Conjoin(b), stemQuery)))
    ensures !IsJsonData(Nested(BinaryData(a.Disjoin(b), stemQuery)))
    ensures !IsJsonData(Nested(BinaryData(a.Subtract(b), stemQuery)))
  {
    assert BinaryData(a.Conjoin(b), stemQuery)[LeftKey] == Operand(a);
    assert BinaryData(a.Disjoin(b), stemQuery)[LeftKey] == Operand(a);
    assert BinaryData(a.Subtract(b), stemQuery)[LeftKey] == Operand(a);
  }

  /** `FindByStemName("a") & FindByStemName("b")` serialises, as intended,
      to the AND tag with both leaves' filters nested under it. */
  lemma ConjoinedStemNamesExample()
    ensures var j := FixedToJson(FindByStemName("a").Conjoin(FindByStemName("b")));
      && j.Keys == {"queryFilterType", "queryFilter0", "queryFilter1"}
      && j["queryFilterType"] == Text("AND")
      && j["queryFilter0"] == Nested(map["queryFilterType" := Text("FIND_BY_STEM_NAME"),
                                         "stemName" := Text("a"),
                                         "stemNameScope" := Text("ONE_LEVEL")])
      && j["queryFilter1"] == Nested(map["queryFilterType" := Text("FIND_BY_STEM_NAME"),
                                         "stemName" := Text("b"),
                                         "stemNameScope" := Text("ONE_LEVEL")])
  {
    var l := FixedToJson(FindByStemName("a"));
    assert l == map["queryFilterType" := Text("FIND_BY_STEM_NAME"),
                    "stemName" := Text("a"),
                    "stemNameScope" := Text("ONE_LEVEL")];
    var r := FixedToJson(FindByStemName("b"));
    assert r == map["queryFilterType" := Text("FIND_BY_STEM_NAME"),
                    "stemName" := Text("b"),
                    "stemNameScope" := Text("ONE_LEVEL")];
  }

  /** The scope strings a FindByStemName node emits are exactly the wire
      values of the StemScope enumeration. */
  lemma ScopeWireIsStemScope(recursive: bool)
    ensures ScopeWire(recursive) ==
      Enums.StemScopeWire(if recursive then Enums.AllInSubtree else Enums.OneLevel)
    ensures Enums.StemScopeFromWire(ScopeWire(recursive)).Some?
  {
  }
}
