/** A Grouper group as the client holds it: identified by name or by uuid,
    with an optional display extension. Its lookup form, its coercion from
    a service record or a bare name, and its name-first equality. */
module Groups {
  import opened Common

  datatype Group = Group(name: Option<string>, uuid: Option<string>, displayExtension: Option<string>)
  {
    /** The constructor's assertion: a name or a uuid is present and non-empty. */
    predicate Valid()
    {
      Truthy(name) || Truthy(uuid)
    }
  }

  /** `Group(name, uuid, display_extension)`: fails its assertion unless a
      name or a uuid is truthy, and otherwise stores the three as given. */
  function NewGroup(name: Option<string> := None, uuid: Option<string> := None,
                    displayExtension: Option<string> := None): (r: Result<Group>)
    ensures r.Success? <==> Truthy(name) || Truthy(uuid)
    ensures r.Failure? ==> r.error == AssertionError
    ensures r.Success? ==>
      && r.value.Valid()
      && r.value.name == name && r.value.uuid == uuid && r.value.displayExtension == displayExtension
  {
    if Truthy(name) || Truthy(uuid) then Success(Group(name, uuid, displayExtension))
    else Failure(AssertionError)
  }

  /** The argument of `Group.coerce`: a dict of a service record, or any
      other value, which becomes the group's name. */
  datatype CoerceArg = Record(entries: map<string, string>) | Name(value: string)

  /** `Group.coerce`: a record supplies `name`, `uuid` and
      `displayExtension` (each `None` when absent); anything else is used
      as the name. Construction fails when neither identifier is truthy. */
  function Coerce(v: CoerceArg): (r: Result<Group>)
    ensures v.Record? ==>
      && (r.Success? <==> Truthy(Get(v.entries, "name")) || Truthy(Get(v.entries, "uuid")))
      && (r.Success? ==> r.value == Group(Get(v.entries, "name"), Get(v.entries, "uuid"),
                                          Get(v.entries, "displayExtension")))
    ensures v.Name? ==>
      && (r.Success? <==> v.value != "")
      && (r.Success? ==> r.value == Group(Some(v.value), None, None))
    ensures r.Failure? ==> r.error == AssertionError
    ensures r.Success? ==> r.value.Valid()
  {
    match v
    case Record(d) => NewGroup(name := Get(d, "name"), uuid := Get(d, "uuid"),
                               displayExtension := Get(d, "displayExtension"))
    case Name(n) => NewGroup(name := Some(n))
  }

  /** `Group.to_json`: the lookup form, `groupName` and `uuid` for the
      truthy identifiers; the display extension never appears. */
  function ToJson(g: Group): (r: map<string, string>)
    ensures r.Keys <= {"groupName", "uuid"}
    ensures "groupName" in r <==> Truthy(g.name)
    ensures "uuid" in r <==> Truthy(g.uuid)
    ensures Truthy(g.name) ==> r["groupName"] == g.name.value
    ensures Truthy(g.uuid) ==> r["uuid"] == g.uuid.value
    ensures g.Valid() ==> r != map[]
  {
    NameUuidJson("groupName", g.name, g.uuid)
  }

  /** `Group.__eq__`: by name when this group's name is truthy, else by
      uuid when its uuid is truthy, else never equal. */
  predicate Eq(self: Group, other: Group)
    ensures Truthy(self.name) ==> (Eq(self, other) <==> self.name == other.name)
    ensures !Truthy(self.name) && Truthy(self.uuid) ==> (Eq(self, other) <==> self.uuid == other.uuid)
    ensures !Truthy(self.name) && !Truthy(self.uuid) ==> !Eq(self, other)
  {
    if Truthy(self.name) then self.name == other.name
    else if Truthy(self.uuid) then self.uuid == other.uuid
    else false
  }

  /** A named group equals exactly the groups of the same name, whatever
      either uuid is; an unnamed one equals exactly those of the same uuid. */
  lemma EqIsNameFirst(a: Group, b: Group)
    requires a.Valid()
    ensures Truthy(a.name) ==> (Eq(a, b) <==> a.name == b.name)
    ensures !Truthy(a.name) ==> (Eq(a, b) <==> a.uuid == b.uuid)
  {
  }

  /** Every constructed group equals itself. */
  lemma EqReflexive(g: Group)
    requires g.Valid()
    ensures Eq(g, g)
  {
  }

  /** Between two groups that both have names, or both lack them, equality
      is symmetric. */
  lemma EqSymmetricWhenAlike(a: Group, b: Group)
    requires a.Valid() && b.Valid()
    requires Truthy(a.name) == Truthy(b.name)
    ensures Eq(a, b) <==> Eq(b, a)
  {
  }

  /** Equality is not symmetric: `Group(name='a', uuid='u') == Group(uuid='u')`
      is false, and the reverse comparison is true. */
  lemma EqNotSymmetric()
    ensures var named := Group(Some("a"), Some("u"), None);
            var unnamed := Group(None, Some("u"), None);
            named.Valid() && unnamed.Valid() && !Eq(named, unnamed) && Eq(unnamed, named)
  {
  }

  /** Equality is not transitive either: an unnamed group equals a named
      one with its uuid, which equals a same-named group with another uuid. */
  lemma EqNotTransitive()
    ensures var a := Group(None, Some("u"), None);
            var b := Group(Some("n"), Some("u"), None);
            var c := Group(Some("n"), Some("v"), None);
            a.Valid() && b.Valid() && c.Valid() && Eq(a, b) && Eq(b, c) && !Eq(a, c)
  {
  }

  /** Two constructed groups with the same lookup form are equal: the
      lookup form carries everything equality looks at. */
  lemma SameLookupMeansEqual(a: Group, b: Group)
    requires a.Valid() && b.Valid()
    requires ToJson(a) == ToJson(b)
    ensures Eq(a, b) && Eq(b, a)
  {
    var ja := ToJson(a);
    if Truthy(a.name) {
      assert ja["groupName"] == a.name.value;
      assert "groupName" in ToJson(b);
    } else {
      assert "uuid" in ja && "groupName" !in ToJson(b);
    }
  }

  /** The lookup form is not what `coerce` reads: coercing it back loses a
      name-only group's name, so the construction fails. */
  lemma CoerceOfLookupFormFails(n: string)
    requires n != ""
    ensures Coerce(Record(ToJson(Group(Some(n), None, None)))) == Failure(AssertionError)
  {
    var j := ToJson(Group(Some(n), None, None));
    assert j == map["groupName" := n];
  }

  /** A service record holding `name` and `uuid` is read back exactly. */
  lemma CoerceRecordRoundTrip(g: Group)
    requires g.Valid()
    requires g.name.Some? && g.uuid.Some? && g.displayExtension.Some?
    ensures Coerce(Record(map["name" := g.name.value, "uuid" := g.uuid.value,
                              "displayExtension" := g.displayExtension.value])) == Success(g)
  {
  }
}
