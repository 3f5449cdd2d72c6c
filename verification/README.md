# aiogrouper: the wire-format and identity layer, in Dafny

This project models the part of the `aiogrouper` client library that
turns client-side values into the JSON the Grouper web service reads. The
library itself is an asyncio client for a group-management directory
service. The modelled part covers:

- the **query expression tree** (`FindByStemName`, `FindByParentStemName`,
  combined by `&`, `|` and `-` into AND, OR and MINUS nodes) and its
  compilation to tagged filter maps (module `Queries`, `query.dfy`);
- the **entities** and their identity rules:
  - `Group`: identified by name or uuid, with name-first equality
    (module `Groups`);
  - `StemLookup` (module `Stems`);
  - `Subject` and `SubjectLookup`: coercion from service records and
    their JSON forms (module `Subjects`);
- the **exception classes** and the registry from service result code to
  exception class, which a loop over the module namespace builds at import
  time (module `Exceptions`);
- the **closed wire enumerations**: field types, stem scopes, composite
  types, permission assignments, save modes and privilege names, each with
  its reverse lookup (module `Enums`).

Module `Common` holds the shared vocabulary:

- `Option` for Python's `None`;
- `Result` for a call that may raise `AssertionError`, `KeyError` or
  `ValueError`;
- `Truthy`, Python's truthiness of an optional string (present and
  non-empty);
- `Get`, for `dict.get`.

Python dicts of strings are `map<string, string>`. The query serialiser's
maps hold `FilterValue`s, which can also carry a query node or a nested map.

Some natural expectations about this layer do not hold in the code. The
model follows the code and proves where it departs:

- A reader might expect `from_json(to_json(entity))` to give the entity
  back. It does not.
  - `Group.to_json` writes `groupName`, but `Group.coerce` reads `name`.
    `Groups.CoerceOfLookupFormFails` proves that coercing a name-only
    group's lookup form fails.
  - `Subject.as_json` writes `subjectId`, but `Subject.coerce` needs `id`.
    `Subjects.CoerceOfAsJsonFails` proves that this raises KeyError.
  - Instead, the model proves round trips through the record shapes that
    `coerce` does read: `Groups.CoerceRecordRoundTrip` and
    `Subjects.CoerceServiceRecord`.
  - `aiogrouper/stem.py` has no reader at all. `Stems.ToJsonRoundTrip` goes
    through `Stems.FromJson`, a reader that the model defines itself as the
    partner of `StemLookup.to_json`.
- A reader might expect an AND query to serialise with its operands' JSON
  nested inside, as the service's filter format requires. As written, it
  serialises to `None` (see Findings).
- A group with neither a name nor a uuid would never be equal to anything.
  Such a group cannot be constructed, because the constructor asserts
  against it. The model's `Valid` predicate carries that invariant.

## Model

| member | source | states |
|---|---|---|
| Queries.Query.Conjoin | aiogrouper/query.py:18-19 | `a & b` is an AND node whose left is `a` and whose right is `b`, unchanged |
| Queries.Query.Disjoin | aiogrouper/query.py:21-22 | the or-operator applied to `a` and `b` is an OR node with `left = a` and `right = b` |
| Queries.Query.Subtract | aiogrouper/query.py:24-25 | `a - b` is a MINUS node with `left = a` and `right = b` |
| Queries.QueryType | aiogrouper/query.py:38-65 | each node's tag is fixed: AND, OR, MINUS, FIND_BY_STEM_NAME, FIND_BY_PARENT_STEM_NAME; tags identify the node kind (both directions) |
| Queries.BaseJson | aiogrouper/query.py:12-16 | the base serialisation has exactly one key, `stemQueryFilterType` when `stem_query` is set and `queryFilterType` otherwise, holding the node's tag |
| Queries.LeafJson | aiogrouper/query.py:57-73 | FindByStemName gives exactly the tag key, `stemName` and `stemNameScope`, which is ALL_IN_SUBTREE iff recursive and ONE_LEVEL iff not. FindByParentStemName gives exactly the tag key and `parentStemName` |
| Queries.BinaryData | aiogrouper/query.py:32-35 | a binary node's map holds exactly the tag key, plus `queryFilter0` and `queryFilter1` bound to the operand nodes themselves |
| Queries.ToJson | aiogrouper/query.py:12-73 | as written, serialisation yields no value exactly for binary nodes; a leaf yields its leaf map |
| Queries.BinaryToJsonLosesResult | aiogrouper/query.py:32-35 | for every `a` and `b`, the AND, OR and MINUS combinations of them serialise to None, and the map they build is not JSON data because it holds a query node |
| Queries.FixedToJson | aiogrouper/query.py:32-35 | the intended serialisation is JSON data at every depth, carries the node's tag, agrees with `ToJson` on leaves, and gives a binary node exactly its three keys, with each operand's own intended serialisation nested under `queryFilter0` and `queryFilter1` |
| Queries.FixedToJsonRoundTrip | aiogrouper/query.py:28-73 | the intended serialisation can be parsed back to the same query, in both tag modes |
| Queries.FixedToJsonInjective | aiogrouper/query.py:28-73 | distinct queries get distinct intended serialisations |
| Queries.ConjoinedStemNamesExample | aiogrouper/query.py:18-19 | `FindByStemName("a") & FindByStemName("b")` serialises to the AND tag with each leaf's three-key filter nested under `queryFilter0` and `queryFilter1` |
| Queries.ScopeWireIsStemScope | aiogrouper/query.py:60 | the `stemNameScope` strings are exactly the StemScope wire values |
| Groups.NewGroup | aiogrouper/group.py:7-11 | construction succeeds iff name or uuid is truthy (else AssertionError) and stores name, uuid and display extension as given |
| Groups.Coerce | aiogrouper/group.py:13-19 | a record gives `name`, `uuid` and `displayExtension` (None when absent), and fails iff neither identifier is truthy. A bare value becomes the name, and fails iff it is empty |
| Groups.ToJson | aiogrouper/group.py:21-27 | keys are among `groupName` and `uuid`: `groupName` iff the name is truthy, `uuid` iff the uuid is truthy, each holding its value. The display extension never appears, and the map is never empty for a constructed group |
| Groups.Eq | aiogrouper/group.py:29-31 | `__eq__` compares by name when this group's name is truthy, else by uuid when its uuid is truthy, and is false when neither is truthy |
| Groups.EqIsNameFirst | aiogrouper/group.py:29-31 | a named group equals exactly the groups with the same name, whatever the uuids; an unnamed one equals exactly those with the same uuid |
| Groups.EqReflexive | aiogrouper/group.py:29-31 | every constructed group equals itself |
| Groups.EqSymmetricWhenAlike | aiogrouper/group.py:29-31 | equality is symmetric between two groups that are both named or both unnamed |
| Groups.EqNotSymmetric | aiogrouper/group.py:29-31 | `Group(name='a', uuid='u') == Group(uuid='u')` is false, but the reverse is true |
| Groups.EqNotTransitive | aiogrouper/group.py:29-31 | equality is not transitive, by a three-group counterexample |
| Groups.SameLookupMeansEqual | aiogrouper/group.py:21-31 | two constructed groups with the same lookup form are equal, in both directions |
| Groups.CoerceOfLookupFormFails | aiogrouper/group.py:13-27 | coercing a name-only group's lookup form fails its assertion |
| Groups.CoerceRecordRoundTrip | aiogrouper/group.py:13-18 | a record with `name`, `uuid` and `displayExtension` coerces to exactly that group |
| Stems.NewStemLookup | aiogrouper/stem.py:2-5 | construction succeeds iff name or uuid is truthy (else AssertionError) and stores both as given |
| Stems.ToJson | aiogrouper/stem.py:7-13 | keys are among `stemName` and `uuid`: `stemName` iff the name is truthy and `uuid` iff the uuid is truthy, each holding its value. The map is non-empty iff the lookup is constructible |
| Stems.ToJsonRoundTrip | aiogrouper/stem.py:7-13 | reading a lookup form back gives a lookup with the same truthy identifiers, the others absent, and the same lookup form |
| Subjects.NewSubject | aiogrouper/subject.py:7-10 | the constructor stores `id`, `identifier`, `source` and `name` as given |
| Subjects.NewSubjectLookup | aiogrouper/subject.py:32-33 | the constructor stores `identifier` and `source` as given |
| Subjects.ConstructorDefaults | aiogrouper/subject.py:7-33 | `identifier`, `source` and `name` of a Subject, and `source` of a SubjectLookup, default to None |
| Subjects.CoerceSubject | aiogrouper/subject.py:12-21 | a dict without `id` raises KeyError. Otherwise it gives `id`, and maps `identifierLookup`, `sourceId` and `name` to identifier, source and name (None when absent). A Subject comes back unchanged; anything else raises ValueError |
| Subjects.SubjectAsJson | aiogrouper/subject.py:23-25 | the full form is exactly `{'subjectId': id}` |
| Subjects.LookupAsJson | aiogrouper/subject.py:35-39 | always holds `subjectIdentifier = identifier`, and holds `subjectSource` iff the source is truthy; no other keys |
| Subjects.CoerceLookup | aiogrouper/subject.py:41-46 | succeeds iff the argument is a SubjectLookup, which comes back unchanged; anything else, a Subject included, raises ValueError |
| Subjects.CoerceIdempotent | aiogrouper/subject.py:19-20 | coercing a coerced subject or lookup again gives the same result |
| Subjects.CoerceServiceRecord | aiogrouper/subject.py:14-18 | every subject is read back exactly from the record shape `coerce` reads |
| Subjects.CoerceOfAsJsonFails | aiogrouper/subject.py:14-25 | coercing a subject's full JSON form raises KeyError |
| Subjects.AsJsonIgnoresOtherFields | aiogrouper/subject.py:23-25 | two subjects have the same full form iff their ids are equal |
| Subjects.LookupAsJsonDeterminesLookup | aiogrouper/subject.py:35-39 | equal lookup forms mean equal identifiers, and equal sources up to truthiness |
| Exceptions.NewAPIException | aiogrouper/exceptions.py:5-9 | an API exception keeps its message, input and output, and is a GrouperException |
| Exceptions.BuildRegistry | aiogrouper/exceptions.py:16-20 | the loop yields the in-order registry of the namespace, and every entry is a proper GrouperAPIException subclass keyed by its own result code |
| Exceptions.RegistryEntriesKeyedByCode | aiogrouper/exceptions.py:16-20 | for any namespace, each registry value is a proper API-exception subclass whose `result_code` is its key |
| Exceptions.RegistryKeys | aiogrouper/exceptions.py:16-20 | a code is a registry key iff some registered class in the namespace has that result code |
| Exceptions.BaseClassesNeverRegistered | aiogrouper/exceptions.py:1-20 | neither GrouperAPIException nor GrouperException is ever a registry value |
| Exceptions.ModuleRegistry | aiogrouper/exceptions.py:12-20 | the module's registry is exactly `{'PROBLEM_SAVING_STEMS': ProblemSavingStems}` |
| Exceptions.ModuleRegistryLookup | aiogrouper/exceptions.py:12-20 | looking up any code other than PROBLEM_SAVING_STEMS finds nothing |
| Enums.FieldTypeFromWire | aiogrouper/enum.py:4-8 | lookup by wire value gives the member whose wire value it is, and nothing when there is none |
| Enums.FieldTypeMembers | aiogrouper/enum.py:4-8 | exactly four members, with pairwise distinct wire values |
| Enums.StemScopeFromWire | aiogrouper/enum.py:11-13 | ONE_LEVEL and ALL_IN_SUBTREE look up their members; nothing else does |
| Enums.StemScopeMembers | aiogrouper/enum.py:11-13 | exactly two members, with distinct wire values |
| Enums.CompositeTypeFromWire | aiogrouper/enum.py:16-19 | lookup by wire value inverts the wire mapping |
| Enums.CompositeTypeMembers | aiogrouper/enum.py:16-19 | exactly three members: intersection, complement and union, all distinct |
| Enums.PermissionAssignmentFromWire | aiogrouper/enum.py:22-24 | assign_permission and remove_permission look up assign and remove; nothing else does |
| Enums.SaveModeFromWire | aiogrouper/enum.py:27-30 | lookup by wire value inverts the wire mapping |
| Enums.SaveModeMembers | aiogrouper/enum.py:27-30 | exactly three members: INSERT, UPDATE and INSERT_OR_UPDATE, all distinct |
| Enums.PrivilegeNameFromWire | aiogrouper/enum.py:33-41 | lookup by wire value inverts the wire mapping |
| Enums.PrivilegeNameMembers | aiogrouper/enum.py:33-41 | eight members; member to wire is injective, and wire to member is its inverse |

## Findings

| source | as written | input that shows it | evidently intended | confidence | as-written member | corrected member |
|---|---|---|---|---|---|---|
| aiogrouper/query.py:32-35 | `BinaryOperator.to_json` builds a map that holds the operand query objects rather than their JSON, then ends without `return`, so it yields `None` | `(FindByStemName('a') & FindByStemName('b')).to_json()` | return the base map with each operand's own `to_json` nested under `queryFilter0` and `queryFilter1` | not executed | Queries.BinaryToJsonLosesResult | Queries.FixedToJson |

## Left out

- `aiogrouper/grouper.py` is not part of this model. It holds the HTTP session and coroutine transport (I/O). It also refers to names that are never defined (`urljoin`, `json`, `bool_to_str`, `stems_url`, `replace_existing`, `query`).
- `aiogrouper/attribute.py` is not part of this model. It imports a `Stem` that `aiogrouper/stem.py` does not define, so it cannot load.
- `aiogrouper/membership.py` is not part of this model. It is a plain record with only `__repr__`.
- `aiogrouper/__init__.py` and `setup.py` are not part of this model. They cover packaging and version discovery.
- `Group.__hash__` is not modelled. It depends on Python's built-in string hashing.
- `__str__` and `__repr__` are not modelled; they are cosmetic.
- Dynamic typing is narrowed to strings:
  - Attribute values and dict values are modelled as strings.
  - The non-dict argument of `Group.coerce` is modelled as a string. In Python, passing a `Group` makes that object the new group's name.
  - The right operand of `&`, `|` and `-` is modelled as a query node, although Python accepts any object there.
- `Groups.Eq` takes a Group as `other`. In Python, comparing with an object that has no `name` or `uuid` attribute (`Group(name='a') == 'a'`) raises AttributeError; that error path is not modelled.
- `Group.__init__` accepts extra keyword arguments and ignores them. Its model takes only the three named parameters.
- The model does not state separately that serialisation leaves a query node's fields unchanged, or that repeated `to_json` calls give equal results. Queries, groups and stem lookups are immutable values, so both hold by construction.
- `assert` statements are modelled as raising AssertionError. Running Python with assertions disabled (`-O`) is not modelled.
- In stem-query mode, `FixedToJson` keeps the `queryFilter0` and `queryFilter1` keys. The code names no other keys for that mode.
- Python enums also look members up by name (`FieldType['list']`); that lookup is not modelled.
- `Exceptions.NewAPIException` keeps the message as a field. It does not model Python's `args` tuple.
