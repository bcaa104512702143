/**
 * What the plugins see of the Discord server: its role list, and the role
 * operations they ask the Discord extension to perform. Those operations
 * are asynchronous calls into the extension; the model records each one
 * as an entry in an effect log and does not follow it further.
 */
module Discord {
  import opened Wrappers

  /** A guild role: its snowflake id and its display name. */
  datatype Role = Role(id: string, name: string)

  /** Whether a role is to be given to a member or taken away. */
  datatype MemberRole = Add | Remove

  /** One entry of the role-effect log. */
  datatype RoleEffect =
    | Grant(user: string, roleId: string)    // AddGuildMemberRole
    | Revoke(user: string, roleId: string)   // RemoveGuildMemberRole
    | RoleMissing(roleName: string)          // the name resolved to no role; logged as an error

  /**
   * Position of the first role in the server's list whose name is exactly
   * `name`; both plugins resolve role names this way.
   */
  function FirstRoleNamed(roles: seq<Role>, name: string): (r: Option<nat>)
    ensures r.Some? ==> r.value < |roles| && roles[r.value].name == name
    ensures r.Some? ==> forall j :: 0 <= j < r.value ==> roles[j].name != name
    ensures r.None? <==> forall j :: 0 <= j < |roles| ==> roles[j].name != name
  {
    if roles == [] then None
    else if roles[0].name == name then Some(0)
    else match FirstRoleNamed(roles[1..], name)
      case None => None
      case Some(k) => Some(k + 1)
  }

  /** The log entry for applying `role` to `user` in the given mode. */
  function Apply(user: string, role: Role, mode: MemberRole): RoleEffect {
    match mode
    case Add => Grant(user, role.id)
    case Remove => Revoke(user, role.id)
  }

  /** The log entry for one role name: the first role of that name applied to the user, or an error. */
  function RoleEffectFor(user: string, name: string, roles: seq<Role>, mode: MemberRole): RoleEffect {
    match FirstRoleNamed(roles, name)
    case None => RoleMissing(name)
    case Some(j) => Apply(user, roles[j], mode)
  }

  /**
   * The log of applying a list of role names to a user: one entry per
   * name, in order. A name is reported missing exactly when no guild role
   * has that name, and the report does not stop the names after it;
   * otherwise the first role of that name is applied in the requested mode.
   */
  function RoleEffects(user: string, names: seq<string>, roles: seq<Role>, mode: MemberRole): (r: seq<RoleEffect>)
    ensures |r| == |names|
    ensures forall i :: 0 <= i < |names| ==>
              (r[i] == RoleMissing(names[i]) <==> forall j :: 0 <= j < |roles| ==> roles[j].name != names[i])
    ensures forall i, j :: 0 <= i < |names| && 0 <= j < |roles| && roles[j].name == names[i]
                           && (forall l :: 0 <= l < j ==> roles[l].name != names[i]) ==>
              r[i] == Apply(user, roles[j], mode)
  {
    seq(|names|, i requires 0 <= i < |names| => RoleEffectFor(user, names[i], roles, mode))
  }

  /** One more name adds its own entry at the end of the log. */
  lemma RoleEffectsSnoc(user: string, names: seq<string>, roles: seq<Role>, mode: MemberRole, i: nat)
    requires i < |names|
    ensures RoleEffects(user, names[..i + 1], roles, mode)
            == RoleEffects(user, names[..i], roles, mode) + [RoleEffectFor(user, names[i], roles, mode)]
  {
    var a, b := RoleEffects(user, names[..i + 1], roles, mode), RoleEffects(user, names[..i], roles, mode);
    assert forall j :: 0 <= j < i ==> a[j] == b[j];
  }
}
