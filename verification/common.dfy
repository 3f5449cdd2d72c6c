/** Values shared by every module of the model: optional values, the
    outcome of an operation that may raise, Python's truthiness of an
    optional string, and the lookup form that groups and stems share. */
module Common {

  /** Python's `None` or a value. */
  datatype Option<+T> = None | Some(value: T)

  /** The exceptions the modelled code raises. */
  datatype Error =
    | AssertionError  // a failed `assert` in a constructor
    | KeyError        // `d[key]` on a dict without that key
    | ValueError      // an explicit `raise ValueError`

  /** A call that either returns a value or raises. */
  datatype Result<+T> = Success(value: T) | Failure(error: Error)

  /** Python truthiness of an optional string: present and non-empty. */
  predicate Truthy(o: Option<string>)
  {
    o.Some? && o.value != ""
  }

  /** `d.get(key)`: the value stored under `key`, or `None`. */
  function Get(d: map<string, string>, key: string): Option<string>
  {
    if key in d then Some(d[key]) else None
  }

  /** The lookup form of an entity identified by name or uuid: the name
      under `nameKey` when it is truthy, the uuid under "uuid" when it is
      truthy, and nothing else. */
  function NameUuidJson(nameKey: string, name: Option<string>, uuid: Option<string>): (r: map<string, string>)
    requires nameKey != "uuid"
    ensures r.Keys <= {nameKey, "uuid"}
    ensures nameKey in r <==> Truthy(name)
    ensures "uuid" in r <==> Truthy(uuid)
    ensures Truthy(name) ==> r[nameKey] == name.value
    ensures Truthy(uuid) ==> r["uuid"] == uuid.value
    ensures r == map[] <==> !Truthy(name) && !Truthy(uuid)
  {
    var data := if Truthy(name) then map[nameKey := name.value] else map[];
    if Truthy(uuid) then data["uuid" := uuid.value] else data
  }
}
