/** The lookup that identifies a stem (a namespace) to the service, by
    name or by uuid. */
module Stems {
  import opened Common

  datatype StemLookup = StemLookup(name: Option<string>, uuid: Option<string>)
  {
    /** The constructor's assertion: a name or a uuid is present and non-empty. */
    predicate Valid()
    {
      Truthy(name) || Truthy(uuid)
    }
  }

  /** `StemLookup(name=..., uuid=...)`: fails its assertion unless a name
      or a uuid is truthy, and otherwise stores both as given. */
  function NewStemLookup(name: Option<string> := None, uuid: Option<string> := None): (r: Result<StemLookup>)
    ensures r.Success? <==> Truthy(name) || Truthy(uuid)
    ensures r.Failure? ==> r.error == AssertionError
    ensures r.Success? ==> r.value.Valid() && r.value.name == name && r.value.uuid == uuid
  {
    if Truthy(name) || Truthy(uuid) then Success(StemLookup(name, uuid))
    else Failure(AssertionError)
  }

  /** `StemLookup.to_json`: `stemName` and `uuid` for the truthy
      identifiers and nothing else; never empty for a constructed lookup. */
  function ToJson(s: StemLookup): (r: map<string, string>)
    ensures r.Keys <= {"stemName", "uuid"}
    ensures "stemName" in r <==> Truthy(s.name)
    ensures "uuid" in r <==> Truthy(s.uuid)
    ensures Truthy(s.name) ==> r["stemName"] == s.name.value
    ensures Truthy(s.uuid) ==> r["uuid"] == s.uuid.value
    ensures s.Valid() <==> r != map[]
  {
    NameUuidJson("stemName", s.name, s.uuid)
  }

  /** Reads a lookup form back: the partner of `ToJson`. */
  function FromJson(j: map<string, string>): Result<StemLookup>
  {
    NewStemLookup(name := Get(j, "stemName"), uuid := Get(j, "uuid"))
  }

  /** The lookup form of a constructed lookup reads back as that lookup,
      up to the untruthy identifiers it leaves out. */
  lemma ToJsonRoundTrip(s: StemLookup)
    requires s.Valid()
    ensures FromJson(ToJson(s)).Success?
    ensures var t := FromJson(ToJson(s)).value;
      && (Truthy(s.name) ==> t.name == s.name)
      && (Truthy(s.uuid) ==> t.uuid == s.uuid)
      && (!Truthy(s.name) ==> t.name.None?)
      && (!Truthy(s.uuid) ==> t.uuid.None?)
      && ToJson(t) == ToJson(s)
  {
    var j := ToJson(s);
    assert Truthy(s.name) ==> Get(j, "stemName") == s.name;
    assert Truthy(s.uuid) ==> Get(j, "uuid") == s.uuid;
  }
}
