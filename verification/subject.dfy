/** Subjects (principals that can be members): the full `Subject` read
    from service output, and the `SubjectLookup` that names one in a
    request. Their coercions and their JSON forms. */
module Subjects {
  import opened Common

  datatype Subject = Subject(id: string, identifier: Option<string>, source: Option<string>, name: Option<string>)

  datatype SubjectLookup = SubjectLookup(identifier: string, source: Option<string>)

  /** `Subject(id, identifier=None, source=None, name=None)`: the
      constructor stores its four arguments as given; the last three
      default to `None`. */
  function NewSubject(id: string, identifier: Option<string> := None,
                      source: Option<string> := None, name: Option<string> := None): (s: Subject)
    ensures s.id == id && s.identifier == identifier && s.source == source && s.name == name
  {
    Subject(id, identifier, source, name)
  }

  /** `SubjectLookup(identifier, source=None)`: stores both as given; the
      source defaults to `None`. */
  function NewSubjectLookup(identifier: string, source: Option<string> := None): (l: SubjectLookup)
    ensures l.identifier == identifier && l.source == source
  {
    SubjectLookup(identifier, source)
  }

  /** A subject built with only an id has no identifier, source or name,
      and its lookup counterpart built with only an identifier has no source. */
  lemma ConstructorDefaults(id: string, identifier: string)
    ensures NewSubject(id) == Subject(id, None, None, None)
    ensures NewSubjectLookup(identifier).source.None?
  {
  }

  /** The argument of either `coerce`: a dict, a Subject, a SubjectLookup,
      or any other value. */
  datatype CoerceArg =
    | Dict(entries: map<string, string>)
    | SubjectValue(subject: Subject)
    | LookupValue(lookup: SubjectLookup)
    | OtherValue

  /** `Subject.coerce`: a dict must hold `id`, and supplies `identifierLookup`,
      `sourceId` and `name` (`None` when absent); a Subject is returned as
      it is; anything else raises ValueError. */
  function CoerceSubject(v: CoerceArg): (r: Result<Subject>)
    ensures v.Dict? ==>
      && ("id" in v.entries <==> r.Success?)
      && ("id" !in v.entries ==> r == Failure(KeyError))
      && (r.Success? ==>
            && r.value.id == v.entries["id"]
            && r.value.identifier == Get(v.entries, "identifierLookup")
            && r.value.source == Get(v.entries, "sourceId")
            && r.value.name == Get(v.entries, "name"))
    ensures v.SubjectValue? ==> r == Success(v.subject)
    ensures v.LookupValue? || v.OtherValue? ==> r == Failure(ValueError)
  {
    match v
    case Dict(d) =>
      if "id" in d then
        Success(NewSubject(d["id"], identifier := Get(d, "identifierLookup"),
                           source := Get(d, "sourceId"), name := Get(d, "name")))
      else Failure(KeyError)
    case SubjectValue(s) => Success(s)
    case _ => Failure(ValueError)
  }

  /** `Subject.as_json`: the id under `subjectId`, and nothing else. */
  function SubjectAsJson(s: Subject): (r: map<string, string>)
    ensures r.Keys == {"subjectId"} && r["subjectId"] == s.id
  {
    map["subjectId" := s.id]
  }

  /** `SubjectLookup.as_json`: the identifier under `subjectIdentifier`,
      and the source under `subjectSource` exactly when it is truthy. */
  function LookupAsJson(l: SubjectLookup): (r: map<string, string>)
    ensures "subjectIdentifier" in r && r["subjectIdentifier"] == l.identifier
    ensures "subjectSource" in r <==> Truthy(l.source)
    ensures Truthy(l.source) ==> r["subjectSource"] == l.source.value
    ensures r.Keys <= {"subjectIdentifier", "subjectSource"}
  {
    var data := map["subjectIdentifier" := l.identifier];
    if Truthy(l.source) then data["subjectSource" := l.source.value] else data
  }

  /** `SubjectLookup.coerce`: a SubjectLookup is returned as it is;
      anything else, a Subject included, raises ValueError. */
  function CoerceLookup(v: CoerceArg): (r: Result<SubjectLookup>)
    ensures v.LookupValue? <==> r.Success?
    ensures v.LookupValue? ==> r.value == v.lookup
    ensures r.Failure? ==> r.error == ValueError
  {
    match v
    case LookupValue(l) => Success(l)
    case _ => Failure(ValueError)
  }

  /** Coercing is idempotent: coercing the result of a successful coercion
      gives the same subject back (likewise for lookups). */
  lemma CoerceIdempotent(v: CoerceArg)
    ensures CoerceSubject(v).Success? ==>
      CoerceSubject(SubjectValue(CoerceSubject(v).value)) == CoerceSubject(v)
    ensures CoerceLookup(v).Success? ==>
      CoerceLookup(LookupValue(CoerceLookup(v).value)) == CoerceLookup(v)
  {
  }

  /** The record shape `Subject.coerce` reads: `id`, with the optional
      fields under their keys when present. */
  function ServiceRecord(s: Subject): map<string, string>
  {
    var withId := map["id" := s.id];
    var withIdentifier := if s.identifier.Some? then withId["identifierLookup" := s.identifier.value] else withId;
    var withSource := if s.source.Some? then withIdentifier["sourceId" := s.source.value] else withIdentifier;
    if s.name.Some? then withSource["name" := s.name.value] else withSource
  }

  /** Every subject is read back exactly from its service record. */
  lemma CoerceServiceRecord(s: Subject)
    ensures CoerceSubject(Dict(ServiceRecord(s))) == Success(s)
  {
    var d := ServiceRecord(s);
    assert "id" in d && d["id"] == s.id;
    assert Get(d, "identifierLookup") == s.identifier;
    assert Get(d, "sourceId") == s.source;
    assert Get(d, "name") == s.name;
  }

  /** The full JSON form is not what `coerce` reads: coercing it back
      raises KeyError, since it holds `subjectId` and not `id`. */
  lemma CoerceOfAsJsonFails(s: Subject)
    ensures CoerceSubject(Dict(SubjectAsJson(s))) == Failure(KeyError)
  {
  }

  /** A subject's JSON form depends on its id alone. */
  lemma AsJsonIgnoresOtherFields(a: Subject, b: Subject)
    ensures SubjectAsJson(a) == SubjectAsJson(b) <==> a.id == b.id
  {
    if SubjectAsJson(a) == SubjectAsJson(b) {
      assert SubjectAsJson(a)["subjectId"] == a.id;
    }
  }

  /** A lookup's JSON form determines its identifier, and its source up
      to truthiness. */
  lemma LookupAsJsonDeterminesLookup(a: SubjectLookup, b: SubjectLookup)
    requires LookupAsJson(a) == LookupAsJson(b)
    ensures a.identifier == b.identifier
    ensures Truthy(a.source) <==> Truthy(b.source)
    ensures Truthy(a.source) ==> a.source == b.source
  {
    var ja := LookupAsJson(a);
    assert ja["subjectIdentifier"] == a.identifier;
    if Truthy(a.source) {
      assert ja["subjectSource"] == a.source.value;
    }
  }
}
