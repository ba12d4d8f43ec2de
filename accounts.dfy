/**
 * Users, roles and the role-permission matrix of the authentication package
 * (backend/pkg/auth/user.go).
 */
module Accounts {
  import opened Wrappers

  /** The five roles. A user's role is stored as text, so texts outside these five occur. */
  datatype Role = SystemAdmin | InventoryManager | FieldOperator | Analyst | Viewer

  datatype Permission =
    | InventoryRead | InventoryWrite
    | MasterRead | MasterWrite
    | StocktakingRead | StocktakingWrite
    | ReportRead | AuditRead | UserManage

  function RoleName(r: Role): string
  {
    match r
    case SystemAdmin => "SYSTEM_ADMIN"
    case InventoryManager => "INVENTORY_MANAGER"
    case FieldOperator => "FIELD_OPERATOR"
    case Analyst => "ANALYST"
    case Viewer => "VIEWER"
  }

  /** The role a stored role text names, if it names one. */
  function ParseRole(s: string): (r: Option<Role>)
    ensures r.Some? ==> RoleName(r.value) == s
  {
    if s == "SYSTEM_ADMIN" then Some(SystemAdmin)
    else if s == "INVENTORY_MANAGER" then Some(InventoryManager)
    else if s == "FIELD_OPERATOR" then Some(FieldOperator)
    else if s == "ANALYST" then Some(Analyst)
    else if s == "VIEWER" then Some(Viewer)
    else None
  }

  /** Every role's name reads back as that role, so the names are pairwise distinct. */
  lemma RoleNameRoundTrip(r: Role)
    ensures ParseRole(RoleName(r)) == Some(r)
  {
  }

  function PermissionName(p: Permission): string
  {
    match p
    case InventoryRead => "inventory:read"
    case InventoryWrite => "inventory:write"
    case MasterRead => "master:read"
    case MasterWrite => "master:write"
    case StocktakingRead => "stocktaking:read"
    case StocktakingWrite => "stocktaking:write"
    case ReportRead => "report:read"
    case AuditRead => "audit:read"
    case UserManage => "user:manage"
  }

  /**
   * Distinct permissions have distinct codes, so comparing permissions, as HasPermission
   * does, agrees with comparing their codes.
   */
  lemma PermissionNamesDistinct(p: Permission, q: Permission)
    ensures PermissionName(p) == PermissionName(q) <==> p == q
  {
  }

  const AllPermissions: set<Permission> :=
    {InventoryRead, InventoryWrite, MasterRead, MasterWrite, StocktakingRead,
     StocktakingWrite, ReportRead, AuditRead, UserManage}

  /** The rows of the RolePermissions table, each in the order the table lists it. */
  function RolePermissions(r: Role): seq<Permission>
  {
    match r
    case SystemAdmin =>
      [InventoryRead, InventoryWrite, MasterRead, MasterWrite, StocktakingRead,
       StocktakingWrite, ReportRead, AuditRead, UserManage]
    case InventoryManager =>
      [InventoryRead, InventoryWrite, MasterRead, MasterWrite, StocktakingRead,
       StocktakingWrite, ReportRead]
    case FieldOperator =>
      [InventoryRead, InventoryWrite, StocktakingRead, StocktakingWrite]
    case Analyst =>
      [InventoryRead, MasterRead, ReportRead, AuditRead]
    case Viewer =>
      [InventoryRead, MasterRead]
  }

  /** No row of the table lists a permission twice. */
  lemma RowsDistinct(r: Role)
    ensures forall i, j :: 0 <= i < j < |RolePermissions(r)| ==> RolePermissions(r)[i] != RolePermissions(r)[j]
  {
  }

  /** The capability set of a role. */
  function Perms(r: Role): set<Permission>
  {
    set p | p in RolePermissions(r)
  }

  /**
   * Whether a user whose stored role text is `role` holds `p`: only when the text names
   * one of the five roles and that role's row lists `p`.
   */
  predicate Granted(role: string, p: Permission)
  {
    ParseRole(role).Some? && p in RolePermissions(ParseRole(role).value)
  }

  lemma SystemAdminHoldsAll()
    ensures Perms(SystemAdmin) == AllPermissions
  {
    assert forall p :: p in AllPermissions ==> p in RolePermissions(SystemAdmin);
  }

  lemma ViewerHoldsOnlyReads()
    ensures Perms(Viewer) == {InventoryRead, MasterRead}
  {
    assert RolePermissions(Viewer)[0] == InventoryRead;
    assert RolePermissions(Viewer)[1] == MasterRead;
  }

  lemma FieldOperatorHoldsFloorWork()
    ensures Perms(FieldOperator) == {InventoryRead, InventoryWrite, StocktakingRead, StocktakingWrite}
    ensures MasterRead !in Perms(FieldOperator) && ReportRead !in Perms(FieldOperator)
  {
    var row := RolePermissions(FieldOperator);
    assert row[0] == InventoryRead && row[1] == InventoryWrite;
    assert row[2] == StocktakingRead && row[3] == StocktakingWrite;
  }

  /** The capabilities that set roles apart, and the one every role shares. */
  lemma Exclusivity(r: Role)
    ensures InventoryRead in Perms(r)
    ensures UserManage in Perms(r) <==> r == SystemAdmin
    ensures AuditRead in Perms(r) <==> r == SystemAdmin || r == Analyst
    ensures Perms(r) <= Perms(SystemAdmin)
  {
    SystemAdminHoldsAll();
    var row := RolePermissions(r);
    assert row[0] == InventoryRead;
    match r
    case SystemAdmin =>
      assert row[8] == UserManage && row[7] == AuditRead;
    case Analyst =>
      assert row[3] == AuditRead;
    case _ =>
  }

  /** A role text outside the five grants nothing; a role's name grants exactly its row. */
  lemma GrantedMeaning(role: string, p: Permission)
    ensures ParseRole(role).None? ==> !Granted(role, p)
    ensures forall r: Role :: Granted(RoleName(r), p) <==> p in Perms(r)
  {
    forall r: Role ensures Granted(RoleName(r), p) <==> p in Perms(r) {
      RoleNameRoundTrip(r);
    }
  }

  /** A user as the store holds it; creation and update times are not modelled. */
  datatype UserRecord = UserRecord(
    id: string,
    email: string,
    name: string,
    passwordHash: string,
    role: string,
    locationId: Option<string>,
    isActive: bool)

  /**
   * A user object. The store keeps references to these, and the administration
   * handlers change their fields in place.
   */
  class User {
    var id: string
    var email: string
    var name: string
    var passwordHash: string
    var role: string
    var locationId: Option<string>
    var isActive: bool

    constructor (record: UserRecord)
      ensures Snapshot() == record
    {
      id, email, name := record.id, record.email, record.name;
      passwordHash, role := record.passwordHash, record.role;
      locationId, isActive := record.locationId, record.isActive;
    }

    /** The fields of this object, copied out (Go's `*user`). */
    function Snapshot(): UserRecord
      reads this
    {
      UserRecord(id, email, name, passwordHash, role, locationId, isActive)
    }

    /** A scan of this user's role row for `perm`; an unknown role holds nothing. */
    method HasPermission(perm: Permission) returns (ok: bool)
      ensures ok == Granted(role, perm)
    {
      var known := ParseRole(role);
      if known.None? {
        return false;
      }
      var perms := RolePermissions(known.value);
      var i := 0;
      while i < |perms|
        invariant 0 <= i <= |perms|
        invariant forall j :: 0 <= j < i ==> perms[j] != perm
      {
        if perms[i] == perm {
          return true;
        }
        i := i + 1;
      }
      return false;
    }
  }

  /**
   * A new active user with the given identity, or null when hashing the password fails.
   * `id` is the freshly drawn UUID and `hash` stands for bcrypt's GenerateFromPassword.
   */
  method NewUser(id: string, email: string, name: string, password: string, role: string,
                 hash: string -> Option<string>) returns (u: User?)
    ensures hash(password).None? <==> u == null
    ensures u != null ==>
      fresh(u) && u.Snapshot() == UserRecord(id, email, name, hash(password).value, role, None, true)
  {
    var hashed := hash(password);
    if hashed.None? {
      return null;
    }
    u := new User(UserRecord(id, email, name, hashed.value, role, None, true));
  }
}
