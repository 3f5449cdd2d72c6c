/** The closed wire enumerations of the Grouper web service. Each is a
    datatype with its wire string (`ToWire`, the Python enum member's
    value) and the lookup from a wire string back to its member
    (`FromWire`, Python's `EnumClass(value)`, which raises ValueError on
    an unknown string: here `None`). */
module Enums {
  import opened Common

  // ----- FieldType -----

  datatype FieldType = ListField | Access | AttributeDef | Naming

  const AllFieldTypes: seq<FieldType> := [ListField, Access, AttributeDef, Naming]

  function FieldTypeWire(f: FieldType): string
  {
    match f
    case ListField => "list"
    case Access => "access"
    case AttributeDef => "attribute_def"
    case Naming => "naming"
  }

  function FieldTypeFromWire(w: string): (r: Option<FieldType>)
    ensures forall f :: r == Some(f) <==> FieldTypeWire(f) == w
  {
    if w == "list" then Some(ListField)
    else if w == "access" then Some(Access)
    else if w == "attribute_def" then Some(AttributeDef)
    else if w == "naming" then Some(Naming)
    else None
  }

  /** FieldType has exactly four members, with pairwise distinct wire values. */
  lemma FieldTypeMembers()
    ensures |AllFieldTypes| == 4
    ensures forall f :: f in AllFieldTypes
    ensures forall i, j :: 0 <= i < j < |AllFieldTypes| ==>
              FieldTypeWire(AllFieldTypes[i]) != FieldTypeWire(AllFieldTypes[j])
  {
    forall f: FieldType ensures f in AllFieldTypes {
      match f
      case ListField =>
      case Access =>
      case AttributeDef =>
      case Naming =>
    }
  }

  // ----- StemScope -----

  datatype StemScope = OneLevel | AllInSubtree

  const AllStemScopes: seq<StemScope> := [OneLevel, AllInSubtree]

  function StemScopeWire(s: StemScope): string
  {
    match s
    case OneLevel => "ONE_LEVEL"
    case AllInSubtree => "ALL_IN_SUBTREE"
  }

  function StemScopeFromWire(w: string): (r: Option<StemScope>)
    ensures forall s :: r == Some(s) <==> StemScopeWire(s) == w
  {
    if w == "ONE_LEVEL" then Some(OneLevel)
    else if w == "ALL_IN_SUBTREE" then Some(AllInSubtree)
    else None
  }

  /** StemScope has exactly two members, with distinct wire values. */
  lemma StemScopeMembers()
    ensures |AllStemScopes| == 2
    ensures forall s :: s in AllStemScopes
    ensures StemScopeWire(AllStemScopes[0]) != StemScopeWire(AllStemScopes[1])
  {
    forall s: StemScope ensures s in AllStemScopes {
      match s
      case OneLevel =>
      case AllInSubtree =>
    }
  }

  // ----- CompositeType -----

  datatype CompositeType = Intersection | Complement | Union

  const AllCompositeTypes: seq<CompositeType> := [Intersection, Complement, Union]

  function CompositeTypeWire(c: CompositeType): string
  {
    match c
    case Intersection => "intersection"
    case Complement => "complement"
    case Union => "union"
  }

  function CompositeTypeFromWire(w: string): (r: Option<CompositeType>)
    ensures forall c :: r == Some(c) <==> CompositeTypeWire(c) == w
  {
    if w == "intersection" then Some(Intersection)
    else if w == "complement" then Some(Complement)
    else if w == "union" then Some(Union)
    else None
  }

  /** CompositeType has exactly three members, with pairwise distinct wire values. */
  lemma CompositeTypeMembers()
    ensures |AllCompositeTypes| == 3
    ensures forall c :: c in AllCompositeTypes
    ensures forall i, j :: 0 <= i < j < |AllCompositeTypes| ==>
              CompositeTypeWire(AllCompositeTypes[i]) != CompositeTypeWire(AllCompositeTypes[j])
  {
    forall c: CompositeType ensures c in AllCompositeTypes {
      match c
      case Intersection =>
      case Complement =>
      case Union =>
    }
  }

  // ----- PermissionAssignment -----

  datatype PermissionAssignment = Assign | Remove

  function PermissionAssignmentWire(p: PermissionAssignment): string
  {
    match p
    case Assign => "assign_permission"
    case Remove => "remove_permission"
  }

  function PermissionAssignmentFromWire(w: string): (r: Option<PermissionAssignment>)
    ensures forall p :: r == Some(p) <==> PermissionAssignmentWire(p) == w
  {
    if w == "assign_permission" then Some(Assign)
    else if w == "remove_permission" then Some(Remove)
    else None
  }

  // ----- SaveMode -----

  datatype SaveMode = Insert | Update | InsertOrUpdate

  const AllSaveModes: seq<SaveMode> := [Insert, Update, InsertOrUpdate]

  function SaveModeWire(m: SaveMode): string
  {
    match m
    case Insert => "INSERT"
    case Update => "UPDATE"
    case InsertOrUpdate => "INSERT_OR_UPDATE"
  }

  function SaveModeFromWire(w: string): (r: Option<SaveMode>)
    ensures forall m :: r == Some(m) <==> SaveModeWire(m) == w
  {
    if w == "INSERT" then Some(Insert)
    else if w == "UPDATE" then Some(Update)
    else if w == "INSERT_OR_UPDATE" then Some(InsertOrUpdate)
    else None
  }

  /** SaveMode has exactly three members, with pairwise distinct wire values. */
  lemma SaveModeMembers()
    ensures |AllSaveModes| == 3
    ensures forall m :: m in AllSaveModes
    ensures forall i, j :: 0 <= i < j < |AllSaveModes| ==>
              SaveModeWire(AllSaveModes[i]) != SaveModeWire(AllSaveModes[j])
  {
    forall m: SaveMode ensures m in AllSaveModes {
      match m
      case Insert =>
      case Update =>
      case InsertOrUpdate =>
    }
  }

  // ----- PrivilegeName -----

  datatype PrivilegeName = Read | View | UpdatePrivilege | Admin | Optin | Optout | StemPrivilege | Create

  const AllPrivilegeNames: seq<PrivilegeName> :=
    [Read, View, UpdatePrivilege, Admin, Optin, Optout, StemPrivilege, Create]

  function PrivilegeNameWire(p: PrivilegeName): string
  {
    match p
    case Read => "read"
    case View => "view"
    case UpdatePrivilege => "update"
    case Admin => "admin"
    case Optin => "optin"
    case Optout => "optout"
    case StemPrivilege => "stem"
    case Create => "create"
  }

  function PrivilegeNameFromWire(w: string): (r: Option<PrivilegeName>)
    ensures forall p :: r == Some(p) <==> PrivilegeNameWire(p) == w
  {
    if w == "read" then Some(Read)
    else if w == "view" then Some(View)
    else if w == "update" then Some(UpdatePrivilege)
    else if w == "admin" then Some(Admin)
    else if w == "optin" then Some(Optin)
    else if w == "optout" then Some(Optout)
    else if w == "stem" then Some(StemPrivilege)
    else if w == "create" then Some(Create)
    else None
  }

  /** PrivilegeName has eight members; member to wire is injective and
      wire to member is its inverse on the eight wire strings. */
  lemma PrivilegeNameMembers()
    ensures |AllPrivilegeNames| == 8
    ensures forall p :: p in AllPrivilegeNames
    ensures forall p, q :: PrivilegeNameWire(p) == PrivilegeNameWire(q) ==> p == q
    ensures forall p :: PrivilegeNameFromWire(PrivilegeNameWire(p)) == Some(p)
  {
    forall p: PrivilegeName ensures p in AllPrivilegeNames {
      match p
      case Read =>
      case View =>
      case UpdatePrivilege =>
      case Admin =>
      case Optin =>
      case Optout =>
      case StemPrivilege =>
      case Create =>
    }
  }
}
