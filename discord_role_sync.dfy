/**
 * Discord Role Sync: when a player joins or leaves an Oxide group, every
 * role-setup entry for that group gives or takes the entry's Discord role
 * from the player's linked Discord account. The link is looked up through
 * Discord Auth; a player without a link, or a server without Discord
 * Auth, changes nothing. A role name the guild does not have is reported
 * and skipped.
 *
 * The plugin keeps no state of its own. The role operations it asks of
 * the Discord client are entries of `roleLog`; Discord Auth's link map is
 * an input (`None` when that plugin is not loaded), and so is the guild's
 * role list.
 */
module DiscordRoleSync {
  import opened Wrappers
  import opened Discord
  import DiscordAuth

  /** One "Role Setup" entry: an Oxide group and the Discord role that goes with it. */
  datatype RoleInfo = RoleInfo(oxideGroup: string, discordRole: string)

  /** The configuration values the hooks read. */
  datatype Config = Config(
    botToken: string,           // "Discord Bot Token"
    roleSetup: seq<RoleInfo>)   // "Role Setup"

  /** The configuration a fresh install writes. */
  const DefaultConfig := Config("", [RoleInfo("default", "Member")])

  /** `GetDiscord`: `API_GetDiscord` of Discord Auth, called through `?.`, so null when it is not loaded. */
  function GetDiscord(auth: Option<map<string, string>>, id: string): (r: Option<string>)
    ensures r.Some? <==> auth.Some? && id in auth.value
    ensures r.Some? ==> r.value == auth.value[id]
  {
    match auth
    case None => None
    case Some(links) => DiscordAuth.GetDiscord(links, id)
  }

  /**
   * `GetRoleIDByName`: the id of the first guild role whose name is
   * exactly `roleName`, or null.
   */
  function GetRoleIDByName(roles: seq<Role>, roleName: string): (r: Option<string>)
    ensures r == match FirstRoleNamed(roles, roleName)
                 case None => None
                 case Some(j) => Some(roles[j].id)
    ensures r.None? <==> forall j :: 0 <= j < |roles| ==> roles[j].name != roleName
  {
    if roles == [] then None
    else if roles[0].name == roleName then Some(roles[0].id)
    else GetRoleIDByName(roles[1..], roleName)
  }

  /** The mode `ManageRole` runs in: `removeRole` false adds, true removes. */
  function ModeOf(removeRole: bool): MemberRole {
    if removeRole then Remove else Add
  }

  /**
   * What one `ManageRole` logs: nothing for a player without a linked
   * Discord account, otherwise the entry for the role name.
   */
  function ManageEffect(auth: Option<map<string, string>>, id: string, roleName: string, roles: seq<Role>,
                        mode: MemberRole): seq<RoleEffect> {
    match GetDiscord(auth, id)
    case None => []
    case Some(user) => [RoleEffectFor(user, roleName, roles, mode)]
  }

  /** The Discord roles of the entries for `group`, in configuration order. */
  function Matching(setup: seq<RoleInfo>, group: string): seq<string>
    decreases |setup|
  {
    if setup == [] then []
    else
      var last := setup[|setup| - 1];
      Matching(setup[..|setup| - 1], group) + (if last.oxideGroup == group then [last.discordRole] else [])
  }

  /** What the loop over the role setup logs for a group change. */
  function GroupEffects(setup: seq<RoleInfo>, auth: Option<map<string, string>>, id: string, group: string,
                        roles: seq<Role>, mode: MemberRole): seq<RoleEffect>
    decreases |setup|
  {
    if setup == [] then []
    else
      var last := setup[|setup| - 1];
      GroupEffects(setup[..|setup| - 1], auth, id, group, roles, mode)
        + (if last.oxideGroup == group then ManageEffect(auth, id, last.discordRole, roles, mode) else [])
  }

  // ------------------------------------------------------------ properties

  /** The roles of a group are exactly the roles of its entries. */
  lemma {:induction false} MatchingExactly(setup: seq<RoleInfo>, group: string, name: string)
    ensures name in Matching(setup, group) <==>
              exists i :: 0 <= i < |setup| && setup[i].oxideGroup == group && setup[i].discordRole == name
    decreases |setup|
  {
    if setup != [] {
      var init := setup[..|setup| - 1];
      var last := setup[|setup| - 1];
      MatchingExactly(init, group, name);
      if exists i :: 0 <= i < |setup| && setup[i].oxideGroup == group && setup[i].discordRole == name {
        var i :| 0 <= i < |setup| && setup[i].oxideGroup == group && setup[i].discordRole == name;
        if i < |init| {
          assert init[i] == setup[i];
        }
      }
      if exists i :: 0 <= i < |init| && init[i].oxideGroup == group && init[i].discordRole == name {
        var i :| 0 <= i < |init| && init[i].oxideGroup == group && init[i].discordRole == name;
        assert setup[i] == init[i];
      }
    }
  }

  /**
   * For a linked player the loop logs, for each entry of the group in
   * configuration order, the entry for its role: the first guild role of
   * that name given or taken, or a missing-role report.
   */
  lemma {:induction false} GroupEffectsLinked(setup: seq<RoleInfo>, auth: Option<map<string, string>>, id: string,
                                              group: string, roles: seq<Role>, mode: MemberRole, user: string)
    requires GetDiscord(auth, id) == Some(user)
    ensures GroupEffects(setup, auth, id, group, roles, mode) == RoleEffects(user, Matching(setup, group), roles, mode)
    decreases |setup|
  {
    if setup != [] {
      var init := setup[..|setup| - 1];
      var last := setup[|setup| - 1];
      GroupEffectsLinked(init, auth, id, group, roles, mode, user);
      var a := Matching(init, group);
      var b := if last.oxideGroup == group then [last.discordRole] else [];
      var r := RoleEffects(user, a + b, roles, mode);
      assert r == RoleEffects(user, a, roles, mode) + RoleEffects(user, b, roles, mode) by {
        assert forall i :: 0 <= i < |a| ==> (a + b)[i] == a[i];
        assert forall i :: 0 <= i < |b| ==> (a + b)[|a| + i] == b[i];
      }
    }
  }

  /** A player without a linked Discord account, or a server without Discord Auth, gets no role change. */
  lemma {:induction false} GroupEffectsUnlinked(setup: seq<RoleInfo>, auth: Option<map<string, string>>, id: string,
                                                group: string, roles: seq<Role>, mode: MemberRole)
    requires GetDiscord(auth, id).None?
    ensures GroupEffects(setup, auth, id, group, roles, mode) == []
    decreases |setup|
  {
    if setup != [] {
      GroupEffectsUnlinked(setup[..|setup| - 1], auth, id, group, roles, mode);
    }
  }

  /** A group that no entry names causes no role change. */
  lemma {:induction false} GroupEffectsNoMatch(setup: seq<RoleInfo>, auth: Option<map<string, string>>, id: string,
                                               group: string, roles: seq<Role>, mode: MemberRole)
    requires forall i :: 0 <= i < |setup| ==> setup[i].oxideGroup != group
    ensures GroupEffects(setup, auth, id, group, roles, mode) == []
    decreases |setup|
  {
    if setup != [] {
      var init := setup[..|setup| - 1];
      assert forall i :: 0 <= i < |init| ==> init[i] == setup[i];
      GroupEffectsNoMatch(init, auth, id, group, roles, mode);
    }
  }

  /**
   * Adding and then removing the same group asks for the same roles, in
   * the same order, once given and once taken away.
   */
  lemma AddRemoveMirror(setup: seq<RoleInfo>, auth: Option<map<string, string>>, id: string, group: string,
                        roles: seq<Role>, i: nat)
    requires i < |GroupEffects(setup, auth, id, group, roles, Add)|
    ensures |GroupEffects(setup, auth, id, group, roles, Remove)| == |GroupEffects(setup, auth, id, group, roles, Add)|
    ensures match GroupEffects(setup, auth, id, group, roles, Add)[i]
            case Grant(u, r) => GroupEffects(setup, auth, id, group, roles, Remove)[i] == Revoke(u, r)
            case RoleMissing(n) => GroupEffects(setup, auth, id, group, roles, Remove)[i] == RoleMissing(n)
            case Revoke(_, _) => false
  {
    match GetDiscord(auth, id)
    case None =>
      GroupEffectsUnlinked(setup, auth, id, group, roles, Add);
    case Some(user) =>
      GroupEffectsLinked(setup, auth, id, group, roles, Add, user);
      GroupEffectsLinked(setup, auth, id, group, roles, Remove, user);
  }

  // ------------------------------------------------------------- the plugin

  class DiscordRoleSync {
    const config: Config
    /** The role operations asked of the Discord client, and the missing-role reports, in order. */
    var roleLog: seq<RoleEffect>

    constructor (config: Config)
      ensures this.config == config && roleLog == []
    {
      this.config := config;
      roleLog := [];
    }

    /**
     * `ManageRole`: nothing for a player without a linked account; a
     * report for a role name the guild does not have; otherwise the role
     * is given, or taken when `removeRole` is set.
     */
    method ManageRole(id: string, roleName: string, removeRole: bool, auth: Option<map<string, string>>,
                      roles: seq<Role>)
      modifies this`roleLog
      ensures roleLog == old(roleLog) + ManageEffect(auth, id, roleName, roles, ModeOf(removeRole))
    {
      var discordUserId := GetDiscord(auth, id);
      if discordUserId.None? {
        return;
      }
      var roleId := GetRoleIDByName(roles, roleName);
      if roleId.None? {
        roleLog := roleLog + [RoleMissing(roleName)];
        return;
      }
      if !removeRole {
        roleLog := roleLog + [Grant(discordUserId.value, roleId.value)];
      } else {
        roleLog := roleLog + [Revoke(discordUserId.value, roleId.value)];
      }
    }

    /** The loop of both group hooks: `ManageRole` for every setup entry of the group, in order. */
    method SyncGroup(id: string, groupName: string, removeRole: bool, auth: Option<map<string, string>>,
                     roles: seq<Role>)
      modifies this`roleLog
      ensures roleLog == old(roleLog) + GroupEffects(config.roleSetup, auth, id, groupName, roles, ModeOf(removeRole))
    {
      var setup := config.roleSetup;
      var i := 0;
      while i < |setup|
        invariant 0 <= i <= |setup|
        invariant roleLog == old(roleLog) + GroupEffects(setup[..i], auth, id, groupName, roles, ModeOf(removeRole))
      {
        assert setup[..i + 1][..i] == setup[..i];
        if setup[i].oxideGroup == groupName {
          ManageRole(id, setup[i].discordRole, removeRole, auth, roles);
        }
        i := i + 1;
      }
      assert setup[..|setup|] == setup;
    }

    /** `OnUserGroupAdded`: each role of the group is given to the player's Discord account. */
    method OnUserGroupAdded(id: string, groupName: string, auth: Option<map<string, string>>, roles: seq<Role>)
      modifies this`roleLog
      ensures roleLog == old(roleLog) + GroupEffects(config.roleSetup, auth, id, groupName, roles, Add)
    {
      SyncGroup(id, groupName, false, auth, roles);
    }

    /** `OnUserGroupRemoved`: each role of the group is taken from the player's Discord account. */
    method OnUserGroupRemoved(id: string, groupName: string, auth: Option<map<string, string>>, roles: seq<Role>)
      modifies this`roleLog
      ensures roleLog == old(roleLog) + GroupEffects(config.roleSetup, auth, id, groupName, roles, Remove)
    {
      SyncGroup(id, groupName, true, auth, roles);
    }
  }
}
