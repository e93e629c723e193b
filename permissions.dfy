/**
 * The role -> permission table and its two lookups (app/lib/permissions.ts).
 * A role arrives as a string (it is read from the signed-in user, which may
 * be restored from storage), so roles outside the table are possible and
 * fall through to "no permissions".
 */
module Permissions {
  import opened Js

  datatype Permission = InviteUsers | ViewCustomers | ViewTransactions | ViewDashboard

  const AdminRole := "admin"
  const CustomerServiceRole := "customer_service"

  /** `rolePermissions`, as an own-property table keyed by role name; each
      role's permissions in the order the table lists them. */
  const RolePermissions: map<string, seq<Permission>> := map[
    AdminRole := [InviteUsers, ViewCustomers, ViewTransactions, ViewDashboard],
    CustomerServiceRole := [ViewCustomers, ViewTransactions, ViewDashboard]
  ]

  /** `hasPermission(role, permission)`: false for a falsy role, otherwise
      whether the role's table entry lists the permission, and false (the
      `?? false` fallback) for a role the table does not know. */
  function HasPermission(role: Option<string>, p: Permission): (b: bool)
    ensures b ==> Truthy(role) && role.value in RolePermissions
    ensures b <==> Truthy(role) && role.value in RolePermissions && p in RolePermissions[role.value]
  {
    if !Truthy(role) then false
    else if role.value in RolePermissions then p in RolePermissions[role.value]
    else false
  }

  /** `getPermissions(role)`: the role's table entry, or the empty list for a
      falsy role or one the table does not know. */
  function GetPermissions(role: Option<string>): (ps: seq<Permission>)
    ensures ps != [] ==> Truthy(role) && role.value in RolePermissions && ps == RolePermissions[role.value]
    ensures Truthy(role) && role.value in RolePermissions ==> ps == RolePermissions[role.value]
  {
    if !Truthy(role) then []
    else if role.value in RolePermissions then RolePermissions[role.value]
    else []
  }

  /** The two lookups agree: a role has a permission exactly when the
      permission is in the role's list. */
  lemma HasPermissionIffListed(role: Option<string>, p: Permission)
    ensures HasPermission(role, p) <==> p in GetPermissions(role)
  {
  }

  /** With no role there is nothing: no permission holds and the list is empty. */
  lemma NoRoleNoPermissions(p: Permission)
    ensures !HasPermission(None, p) && !HasPermission(Some(""), p)
    ensures GetPermissions(None) == [] && GetPermissions(Some("")) == []
  {
  }

  /** A role the table does not know gets `false` and `[]`. */
  lemma UnknownRoleNoPermissions(role: string, p: Permission)
    requires role !in RolePermissions
    ensures !HasPermission(Some(role), p) && GetPermissions(Some(role)) == []
  {
  }

  /** `admin` holds every permission. */
  lemma AdminHoldsAll(p: Permission)
    ensures HasPermission(Some(AdminRole), p)
  {
  }

  /** `customer_service` may view customers, transactions and the dashboard,
      and may not invite users. */
  lemma CustomerServiceHolds(p: Permission)
    ensures HasPermission(Some(CustomerServiceRole), p) <==> p != InviteUsers
  {
  }

  /** `customer_service`'s permissions are a strict subset of `admin`'s. */
  lemma CustomerServiceStrictlyBelowAdmin()
    ensures (set p | p in GetPermissions(Some(CustomerServiceRole)))
          < (set p | p in GetPermissions(Some(AdminRole)))
  {
    var cs := set p | p in GetPermissions(Some(CustomerServiceRole));
    var admin := set p | p in GetPermissions(Some(AdminRole));
    forall p | p in cs ensures p in admin {
      CustomerServiceHolds(p);
      AdminHoldsAll(p);
      HasPermissionIffListed(Some(AdminRole), p);
    }
    assert InviteUsers in admin && InviteUsers !in cs;
  }
}
