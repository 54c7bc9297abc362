/** The role predicates of frontend/src/hooks/usePermissions.ts. A user's
    roles are Role records and a role is named by its `authority`. */
module Permissions {
  import opened Common
  import opened Types

  /** `roles.some(r => r.authority === role)` */
  function SomeAuthority(roles: seq<Role>, role: string): (r: bool)
    ensures r <==> exists i :: 0 <= i < |roles| && roles[i].authority == role
    decreases |roles|
  {
    if roles == [] then false
    else roles[0].authority == role || SomeAuthority(roles[1..], role)
  }

  /** hasRole: false without a user, otherwise some role carries that authority. */
  function HasRole(user: Option<User>, role: string): (r: bool)
    ensures r <==> user.Some? && exists i :: 0 <= i < |user.value.roles| && user.value.roles[i].authority == role
  {
    match user
    case None => false
    case Some(u) => SomeAuthority(u.roles, role)
  }

  function CanManageProducts(user: Option<User>): (r: bool)
    ensures r <==> user.Some? && exists i :: 0 <= i < |user.value.roles| && user.value.roles[i].authority == AdminRole
  {
    HasRole(user, AdminRole)
  }

  function CanManageOrders(user: Option<User>): (r: bool)
    ensures r <==> user.Some? && exists i :: 0 <= i < |user.value.roles| && user.value.roles[i].authority == AdminRole
  {
    HasRole(user, AdminRole)
  }

  function CanManageUsers(user: Option<User>): (r: bool)
    ensures r <==> user.Some? && exists i :: 0 <= i < |user.value.roles| && user.value.roles[i].authority == AdminRole
  {
    HasRole(user, AdminRole)
  }

  function CanCreateOrder(user: Option<User>): (r: bool)
    ensures r <==> HasRole(user, ClientRole) || HasRole(user, AdminRole)
  {
    HasRole(user, ClientRole) || HasRole(user, AdminRole)
  }

  /** canViewOrder: administrators see every order, clients only their own. */
  function CanViewOrder(user: Option<User>, order: Order): (r: bool)
    ensures r ==> HasRole(user, AdminRole) || HasRole(user, ClientRole)
  {
    if HasRole(user, AdminRole) then true
    else HasRole(user, ClientRole) && user.Some? && order.client.id == user.value.id
  }

  /** The three management permissions are one and the same test. */
  lemma ManagementIsAdmin(user: Option<User>)
    ensures CanManageProducts(user) == CanManageOrders(user) == CanManageUsers(user) == HasRole(user, AdminRole)
  {
  }

  /** Without a user, or with an empty role list, no role is held. */
  lemma NoUserNoRoles(user: Option<User>, role: string)
    requires user.None? || user.value.roles == []
    ensures !HasRole(user, role) && !CanCreateOrder(user)
  {
  }

  lemma AdminViewsEveryOrder(user: Option<User>, order: Order)
    requires HasRole(user, AdminRole)
    ensures CanViewOrder(user, order)
  {
  }

  /** A client who is not an administrator sees exactly the orders placed by them. */
  lemma ClientViewsOwnOrders(user: Option<User>, order: Order)
    requires HasRole(user, ClientRole) && !HasRole(user, AdminRole)
    ensures CanViewOrder(user, order) <==> order.client.id == user.value.id
  {
  }

  /** A user holding neither role sees no order at all. */
  lemma NoRoleViewsNothing(user: Option<User>, order: Order)
    requires !HasRole(user, ClientRole) && !HasRole(user, AdminRole)
    ensures !CanViewOrder(user, order)
  {
  }

  /** An administrator is recognised by authority, whatever the role's id. */
  lemma AdminByAuthority(u: User, k: nat)
    requires k < |u.roles| && u.roles[k].authority == AdminRole
    ensures HasRole(Some(u), AdminRole) && CanManageProducts(Some(u)) && CanCreateOrder(Some(u))
  {
  }
}
