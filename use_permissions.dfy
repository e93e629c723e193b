/**
 * The permission hook (app/hooks/use-permissions.ts): everything it returns
 * is derived from the signed-in user's role.
 */
module UsePermissions {
  import opened Js
  import opened Permissions
  import opened AuthStore

  /** `user?.role`. */
  function RoleOf(user: Option<User>): (role: Option<string>)
    ensures user.None? ==> role.None?
    ensures user.Some? ==> role == user.value.role
  {
    match user
    case None => None
    case Some(u) => u.role
  }

  /** `can(permission)`: the table's answer for the current user's role. */
  function Can(user: Option<User>, p: Permission): (b: bool)
    ensures b ==> user.Some? && Truthy(user.value.role)
    ensures b <==> p in GetPermissions(RoleOf(user))
  {
    HasPermissionIffListed(RoleOf(user), p);
    HasPermission(RoleOf(user), p)
  }

  /** `role === "admin"`: an admin account is signed in. */
  predicate IsAdmin(user: Option<User>)
    ensures IsAdmin(user) ==> user.Some? && Truthy(user.value.role)
    ensures IsAdmin(user) <==> Can(user, InviteUsers)
  {
    RoleOf(user) == Some(AdminRole)
  }

  /** `role === "customer_service"`: an agent account is signed in. */
  predicate IsCustomerService(user: Option<User>)
    ensures IsCustomerService(user) ==> user.Some? && Truthy(user.value.role)
    ensures IsCustomerService(user) <==> !Can(user, InviteUsers) && Can(user, ViewCustomers)
  {
    RoleOf(user) == Some(CustomerServiceRole)
  }

  /** Nobody is both an admin and a customer-service agent. */
  lemma RolesExclusive(user: Option<User>)
    ensures !(IsAdmin(user) && IsCustomerService(user))
  {
  }

  /** With nobody signed in, the hook grants nothing and names no role. */
  lemma NoUserNoAccess(p: Permission)
    ensures !Can(None, p) && !IsAdmin(None) && !IsCustomerService(None)
  {
  }

  /** An admin can do everything. */
  lemma AdminCanAll(user: Option<User>, p: Permission)
    requires IsAdmin(user)
    ensures Can(user, p)
  {
    AdminHoldsAll(p);
  }

  /** A customer-service agent can do everything but invite users. */
  lemma CustomerServiceCan(user: Option<User>, p: Permission)
    requires IsCustomerService(user)
    ensures Can(user, p) <==> p != InviteUsers
  {
    CustomerServiceHolds(p);
  }
}
