/**
 * Discord Auth: links a game (Steam) account to a Discord account.
 *
 * A player asks in game for a code (`/auth`); the plugin keeps it in the
 * pending-code map keyed by the Steam id and drops it when its timer
 * fires. A Discord user who sends that code to the bot in a direct message
 * is linked: the link map gets Steam id -> Discord id, the Steam id joins
 * the configured Oxide group and the Discord user gets the configured
 * roles. Links are undone by `/deauth` or, by configuration, when the
 * Discord user leaves the guild.
 *
 * Timers, hooks of other plugins and the Discord client are not part of
 * the model: each timer is an explicit event method, each veto hook an
 * input, and each role operation an entry in `roleLog`.
 */
module DiscordAuth {
  import opened Wrappers
  import opened Lists
  import opened Discord
  import Text

  /** The configuration values the plugin reads. */
  datatype Config = Config(
    group: string,            // "Oxide Group"
    roles: seq<string>,       // "Discord Roles to Assign"
    removeFromGroup: bool,    // "Revoke Oxide Group on Discord Leave"
    deauthenticate: bool,     // "Deauthenticate on Discord Leave"
    codeLifetime: int,        // "Code Lifetime (minutes)"
    codeLength: int,          // "Code Length"
    lowercase: bool)          // "Lowercase"

  /** The configuration a fresh install writes. */
  const DefaultConfig := Config("authenticated", ["Authenticated"], true, false, 60, 5, false)

  // ---------------------------------------------------------------- codes

  /** The number of characters a code of configured length `size` has. */
  function CodeSize(size: int): nat {
    if size > 0 then size else 0
  }

  /**
   * The letter for one random draw: `floor(26 * NextDouble() + 65)` is the
   * character code of an upper-case letter, `draw` being the value of
   * `floor(26 * NextDouble())`; `ToLower` then maps it to lower case.
   */
  function Letter(draw: nat, lowerCase: bool): char
    requires draw < 26
  {
    if lowerCase then ('a' as int + draw) as char else ('A' as int + draw) as char
  }

  /** The draws a random source can deliver for one code. */
  predicate ValidDraws(draws: seq<nat>, size: int) {
    |draws| == CodeSize(size) && forall i :: 0 <= i < |draws| ==> draws[i] < 26
  }

  /** A well-formed code: the configured length, letters of the configured case only. */
  predicate IsCode(code: string, size: int, lowerCase: bool) {
    && |code| == CodeSize(size)
    && forall i :: 0 <= i < |code| ==>
         if lowerCase then 'a' <= code[i] <= 'z' else 'A' <= code[i] <= 'Z'
  }

  /**
   * `String.ToLower` on one character, for the ASCII letters `A`-`Z` only:
   * the code builder never holds any other character.
   */
  function LowerChar(c: char): char {
    if 'A' <= c <= 'Z' then (c as int + 32) as char else c
  }

  /**
   * `String.ToLower`, character by character, as far as the model goes:
   * each of `A`-`Z` becomes its lower-case partner and every other
   * character is kept.
   */
  function ToLower(s: string): (r: string)
    ensures |r| == |s|
    ensures forall i :: 0 <= i < |s| ==> r[i] == LowerChar(s[i])
    ensures forall i :: 0 <= i < |s| && 'A' <= s[i] <= 'Z' ==> 'a' <= r[i] <= 'z' && r[i] as int - s[i] as int == 32
    ensures forall i :: 0 <= i < |s| && !('A' <= s[i] <= 'Z') ==> r[i] == s[i]
  {
    seq(|s|, i requires 0 <= i < |s| => LowerChar(s[i]))
  }

  /** The code that a given sequence of draws produces. */
  function CodeOf(draws: seq<nat>, lowerCase: bool): (code: string)
    requires forall i :: 0 <= i < |draws| ==> draws[i] < 26
  {
    seq(|draws|, i requires 0 <= i < |draws| => Letter(draws[i], lowerCase))
  }

  /**
   * `GenerateCode`: appends one upper-case letter per draw to a string
   * builder, then lower-cases the whole string when asked to.
   */
  method GenerateCode(size: int, lowerCase: bool, draws: seq<nat>) returns (code: string)
    requires ValidDraws(draws, size)
    ensures IsCode(code, size, lowerCase)
    ensures forall i :: 0 <= i < |code| ==> code[i] == Letter(draws[i], lowerCase)
  {
    var builder: string := [];
    var i := 0;
    while i < size
      invariant 0 <= i <= |draws|
      invariant |builder| == i
      invariant forall j :: 0 <= j < i ==> builder[j] == Letter(draws[j], false)
    {
      builder := builder + [('A' as int + draws[i]) as char];
      i := i + 1;
    }
    if lowerCase {
      code := ToLower(builder);
    } else {
      code := builder;
    }
  }

  /** Every code the generator can produce is well formed, whatever the draws. */
  lemma {:induction false} CodeOfIsCode(draws: seq<nat>, size: int, lowerCase: bool)
    requires ValidDraws(draws, size)
    ensures IsCode(CodeOf(draws, lowerCase), size, lowerCase)
  {
  }

  /** A code is made of letters only, so .NET's `Length` of it is its length. */
  lemma CodeLengthUtf16(code: string, size: int, lowerCase: bool)
    requires IsCode(code, size, lowerCase)
    ensures Text.Utf16Length(code) == |code| == CodeSize(size)
  {
    assert forall i :: 0 <= i < |code| ==> code[i] as int <= 'z' as int;
  }

  // ---------------------------------------------------------- the lookups

  /** `API_IsAuthenticated`: the id is a linked Steam id, or the Discord id some Steam id is linked to. */
  function IsAuthenticated(links: map<string, string>, id: string): (r: bool)
    ensures r <==> id in links || exists s :: s in links && links[s] == id
  {
    id in links || id in links.Values
  }

  /** `API_GetDiscord`: the Discord id linked to a Steam id, if any. */
  function GetDiscord(links: map<string, string>, id: string): (r: Option<string>)
    ensures r.Some? <==> id in links
    ensures r.Some? ==> links[id] == r.value
  {
    if id in links then Some(links[id]) else None
  }

  /** `API_GetAuthCount`: the number of links, which is the length of every enumeration of them. */
  function AuthCount(links: map<string, string>): (r: nat)
    ensures forall order :: IsEnumeration(order, links.Keys) ==> r == |order|
  {
    assert forall order :: IsEnumeration(order, links.Keys) ==> |links| == |order| by {
      forall order | IsEnumeration(order, links.Keys) ensures |links| == |order| {
        EnumerationLength(order, links.Keys);
      }
    }
    |links|
  }

  /**
   * The first key, in enumeration order, that is linked to `v`: what the
   * `foreach` of `API_GetSteam` returns.
   */
  function FirstWithValue(order: seq<string>, links: map<string, string>, v: string): (r: Option<string>)
    requires forall i :: 0 <= i < |order| ==> order[i] in links
    ensures r.Some? ==> r.value in order && r.value in links && links[r.value] == v
    ensures r.Some? ==> forall j :: 0 <= j < IndexOf(order, r.value) ==> links[order[j]] != v
    ensures r.None? <==> forall i :: 0 <= i < |order| ==> links[order[i]] != v
  {
    if order == [] then None
    else if links[order[0]] == v then Some(order[0])
    else FirstWithValue(order[1..], links, v)
  }

  /**
   * `API_GetSteam`: walks the keys and returns the first one linked to the
   * id; `None` is the `null` result. The source first asks `ContainsValue`
   * and skips the walk when that fails; the walk finds nothing in exactly
   * that case, so the model walks unconditionally.
   */
  method GetSteam(links: map<string, string>, order: seq<string>, id: string) returns (r: Option<string>)
    requires IsEnumeration(order, links.Keys)
    ensures r == FirstWithValue(order, links, id)
    ensures r.Some? <==> id in links.Values
    ensures r.Some? ==> r.value in links && links[r.value] == id
  {
    var i := 0;
    while i < |order|
      invariant 0 <= i <= |order|
      invariant FirstWithValue(order, links, id) == FirstWithValue(order[i..], links, id)
    {
      assert order[i..][1..] == order[i + 1..];
      if links[order[i]] == id {
        return Some(order[i]);
      }
      i := i + 1;
    }
    return None;
  }

  /** An enumeration has exactly as many entries as the set it enumerates. */
  lemma {:induction false} EnumerationLength(order: seq<string>, keys: set<string>)
    requires IsEnumeration(order, keys)
    ensures |order| == |keys|
  {
    if order != [] {
      var rest := order[1..];
      assert IsEnumeration(rest, keys - {order[0]}) by {
        forall i, j | 0 <= i < j < |rest| ensures rest[i] != rest[j] {
          assert rest[i] == order[i + 1] && rest[j] == order[j + 1];
        }
        forall k ensures k in rest <==> k in keys - {order[0]} {
          if k in rest {
            var i :| 0 <= i < |rest| && rest[i] == k;
            assert order[i + 1] == k;
          }
          if k in keys - {order[0]} {
            assert k in order;
            var i :| 0 <= i < |order| && order[i] == k;
            assert i != 0 && rest[i - 1] == k;
          }
        }
      }
      EnumerationLength(rest, keys - {order[0]});
    }
  }

  /** `API_GetSteamList`: `Keys.ToList()`, the linked Steam ids in enumeration order, each once. */
  function SteamList(links: map<string, string>, order: seq<string>): (r: seq<string>)
    requires IsEnumeration(order, links.Keys)
    ensures r == order
    ensures |r| == AuthCount(links)
    ensures forall k :: k in r <==> k in links
    ensures Distinct(r)
  {
    order
  }

  /**
   * `API_GetDiscordList`: `Values.ToList()`, one Discord id per link, at
   * the position of its Steam id in `API_GetSteamList`; a Discord id
   * linked from two Steam ids appears twice.
   */
  function DiscordList(links: map<string, string>, order: seq<string>): (r: seq<string>)
    requires IsEnumeration(order, links.Keys)
    ensures |r| == AuthCount(links)
    ensures forall i :: 0 <= i < |r| ==> r[i] == links[SteamList(links, order)[i]]
    ensures forall v :: v in r <==> v in links.Values
  {
    EnumerationLength(order, links.Keys);
    var r := seq(|order|, i requires 0 <= i < |order| => links[order[i]]);
    assert forall v :: v in links.Values ==> v in r by {
      forall v | v in links.Values ensures v in r {
        var k :| k in links && links[k] == v;
        var i :| 0 <= i < |order| && order[i] == k;
        assert r[i] == v;
      }
    }
    r
  }

  /**
   * The three lookups agree: an id counts as authenticated exactly when it
   * has a Discord id (it is a Steam id) or a Steam id (it is a Discord id),
   * whatever order the keys are enumerated in.
   */
  lemma LookupsAgree(links: map<string, string>, order: seq<string>, id: string)
    requires IsEnumeration(order, links.Keys)
    ensures IsAuthenticated(links, id) <==>
              GetDiscord(links, id).Some? || FirstWithValue(order, links, id).Some?
  {
    if id in links.Values {
      var k :| k in links && links[k] == id;
      var i :| 0 <= i < |order| && order[i] == k;
      assert links[order[i]] == id;
    }
  }

  // ------------------------------------------------------------ the roles

  /** `GetRoleByName`: the first guild role with exactly that name, or `None`. */
  method GetRoleByName(roles: seq<Role>, roleName: string) returns (r: Option<Role>)
    ensures r.None? <==> forall j :: 0 <= j < |roles| ==> roles[j].name != roleName
    ensures r.Some? ==> (FirstRoleNamed(roles, roleName).Some?
                         && r.value == roles[FirstRoleNamed(roles, roleName).value])
  {
    var i := 0;
    while i < |roles|
      invariant 0 <= i <= |roles|
      invariant forall j :: 0 <= j < i ==> roles[j].name != roleName
    {
      if roles[i].name == roleName {
        assert FirstRoleNamed(roles, roleName) == Some(i);
        return Some(roles[i]);
      }
      i := i + 1;
    }
    return None;
  }

  // ------------------------------------------------ matching a submitted code

  /** The state a run of `Authenticate` calls leaves, and the Steam id whose `Add` threw, if any. */
  datatype Commit = Commit(links: map<string, string>, group: set<string>, fault: Option<string>)

  /** A pending requester that the match loop passes to `Authenticate` and whose hook lets it through. */
  ghost predicate Hit(codes: map<string, string>, content: string, vetoed: set<string>, s: string) {
    s in codes && codes[s] == content && s !in vetoed
  }

  /**
   * The loop over the pending codes in the direct-message handler: each
   * Steam id whose code equals the message is passed to `Authenticate`;
   * a vetoed one is skipped, and `Dictionary.Add` on one that is already
   * linked throws, which ends the loop with the earlier links in place.
   */
  function CommitMatches(order: seq<string>, codes: map<string, string>, content: string, author: string,
                         vetoed: set<string>, links: map<string, string>, group: set<string>): (r: Commit)
    requires forall i :: 0 <= i < |order| ==> order[i] in codes
    ensures forall s :: s in links ==> s in r.links && r.links[s] == links[s]
    ensures forall s :: s in r.links && s !in links ==> r.links[s] == author && s in r.group
    ensures group <= r.group
    ensures r.fault.Some? ==> r.fault.value in r.links
  {
    if order == [] then Commit(links, group, None)
    else
      var k := order[0];
      if codes[k] != content || k in vetoed then
        CommitMatches(order[1..], codes, content, author, vetoed, links, group)
      else if k in links then Commit(links, group, Some(k))
      else CommitMatches(order[1..], codes, content, author, vetoed, links[k := author], group + {k})
  }

  /**
   * The match loop throws exactly when some requester it would link is
   * already linked, and the Steam id it reports is one of them.
   */
  lemma {:induction false} CommitFaultIff(order: seq<string>, codes: map<string, string>, content: string,
                                          author: string, vetoed: set<string>,
                                          links: map<string, string>, group: set<string>)
    requires Distinct(order) && forall i :: 0 <= i < |order| ==> order[i] in codes
    ensures var c := CommitMatches(order, codes, content, author, vetoed, links, group);
      && (c.fault.Some? <==> exists i :: 0 <= i < |order| && Hit(codes, content, vetoed, order[i]) && order[i] in links)
      && (c.fault.Some? ==> c.fault.value in order && Hit(codes, content, vetoed, c.fault.value) && c.fault.value in links)
  {
    if order != [] {
      var k, rest := order[0], order[1..];
      assert Distinct(rest) by {
        forall i, j | 0 <= i < j < |rest| ensures rest[i] != rest[j] {
          assert rest[i] == order[i + 1] && rest[j] == order[j + 1];
        }
      }
      assert forall i :: 0 <= i < |rest| ==> rest[i] == order[i + 1];
      if codes[k] != content || k in vetoed {
        CommitFaultIff(rest, codes, content, author, vetoed, links, group);
        assert !Hit(codes, content, vetoed, order[0]);
      } else if k !in links {
        CommitFaultIff(rest, codes, content, author, vetoed, links[k := author], group + {k});
        assert forall i :: 0 <= i < |rest| ==> rest[i] != k;
      }
    }
  }

  /** The Steam ids among `order` that the match loop links when it does not throw. */
  ghost function Matched(order: seq<string>, codes: map<string, string>, content: string, vetoed: set<string>): set<string> {
    set s | s in order && Hit(codes, content, vetoed, s)
  }

  /**
   * When the match loop does not throw, every requester whose code equals
   * the message and whose hook lets it through is linked to the author and
   * added to the group, and every other link is as it was.
   */
  lemma {:induction false} CommitLinksAll(order: seq<string>, codes: map<string, string>, content: string,
                                          author: string, vetoed: set<string>,
                                          links: map<string, string>, group: set<string>)
    requires Distinct(order) && forall i :: 0 <= i < |order| ==> order[i] in codes
    requires CommitMatches(order, codes, content, author, vetoed, links, group).fault.None?
    ensures var c := CommitMatches(order, codes, content, author, vetoed, links, group);
            var m := Matched(order, codes, content, vetoed);
      && c.group == group + m
      && (forall s :: s in c.links <==> s in links || s in m)
      && (forall s :: s in m ==> s !in links && c.links[s] == author)
      && (forall s :: s in links ==> c.links[s] == links[s])
  {
    if order != [] {
      var k, rest := order[0], order[1..];
      assert Distinct(rest) by {
        forall i, j | 0 <= i < j < |rest| ensures rest[i] != rest[j] {
          assert rest[i] == order[i + 1] && rest[j] == order[j + 1];
        }
      }
      assert forall i :: 0 <= i < |rest| ==> rest[i] == order[i + 1];
      assert k !in rest;
      var m, mr := Matched(order, codes, content, vetoed), Matched(rest, codes, content, vetoed);
      assert forall s :: s in order <==> s == k || s in rest;
      if codes[k] != content || k in vetoed {
        assert m == mr;
        CommitLinksAll(rest, codes, content, author, vetoed, links, group);
      } else {
        assert k !in links;
        assert m == mr + {k};
        CommitLinksAll(rest, codes, content, author, vetoed, links[k := author], group + {k});
      }
    }
  }

  /**
   * Links are not one-to-one: two requesters that were handed the same
   * code are both linked to the one Discord user who sends it.
   */
  lemma SharedCodeLinksBoth()
    ensures var c := CommitMatches(["g1", "g2"], map["g1" := "ABCDE", "g2" := "ABCDE"], "ABCDE", "c1",
                                   {}, map[], {});
      c.fault.None? && c.links == map["g1" := "c1", "g2" := "c1"]
  {
    var codes := map["g1" := "ABCDE", "g2" := "ABCDE"];
    var order := ["g1", "g2"];
    var empty: map<string, string> := map[];
    assert order[1..] == ["g2"] && order[1..][1..] == [];
    assert empty["g1" := "c1"] == map["g1" := "c1"];
    assert map["g1" := "c1"]["g2" := "c1"] == map["g1" := "c1", "g2" := "c1"];
    var none: set<string> := {};
    var c := CommitMatches(order, codes, "ABCDE", "c1", none, empty, none);
    assert c == CommitMatches(order[1..], codes, "ABCDE", "c1", none, empty["g1" := "c1"], none + {"g1"});
    assert none + {"g1"} == {"g1"};
    assert c == CommitMatches(["g2"], codes, "ABCDE", "c1", none, map["g1" := "c1"], {"g1"});
    assert c == CommitMatches([], codes, "ABCDE", "c1", {}, map["g1" := "c1", "g2" := "c1"], {"g1", "g2"});
  }

  // ------------------------------------------------------------ the plugin

  /** What the player reads after `/auth`. */
  datatype AuthReply =
    | AuthNoPermission                          // "No Permission"
    | AuthAlreadyLinked                         // "Already Authenticated"
    | CodeGeneration(code: string, issued: bool) // "Code Generation"; `issued`: stored, with a fresh expiry timer

  /** What the player reads after `/deauth`. */
  datatype DeauthReply =
    | DeauthNoPermission      // "No Permission"
    | NotAuthenticated        // "Not Authenticated"
    | GameDeauthenticated     // "Game-Deauthenticated"

  /** How `Authenticate` ends. */
  datatype AuthOutcome = Vetoed | Linked | AddThrew

  /** How the direct-message handler ends. */
  datatype DmOutcome =
    | Ignored                   // not looked at: a bot, not a DM, or the wrong length
    | UnableToFindCode          // reply "Unable to find code"
    | DmAlreadyAuthenticated    // reply "Already Authenticated"
    | Authenticated             // roles granted, reply "Authenticated"
    | Faulted(steamId: string)  // `Add` threw for this Steam id; nothing after it ran

  /** How the member-left handler ends. */
  datatype LeaveOutcome =
    | LeaverNotLinked
    | LeaverDeauthenticated(steamId: string)   // DM "Discord-Deauthenticated"
    | LeaverGroupRevoked(steamId: string)      // DM "Group Revoked"
    | LeaverKept(steamId: string)              // neither option set: nothing done

  /** How the member-joined handler ends. */
  datatype JoinOutcome =
    | JoinUnsubscribed                       // the hook is unsubscribed at Init
    | JoinerNotLinked
    | JoinerGranted(steamId: string)         // DM "Group Granted"

  class DiscordAuth {
    const config: Config
    /** `Codes`: Steam id -> pending code. Never saved. */
    var codes: map<string, string>
    /** `data.Players`: Steam id -> Discord id. */
    var links: map<string, string>
    /** The contents of the plugin's data file. */
    var stored: map<string, string>
    /** The Steam ids in the Oxide group `config.group`. */
    var group: set<string>
    /** Every role operation asked of the Discord client, in order. */
    var roleLog: seq<RoleEffect>
    /** `Discord_MemberAdded` stays subscribed only when the group is revoked on leave. */
    const memberAddedSubscribed: bool

    /** Every pending code is one the generator could have produced. */
    ghost predicate Valid()
      reads this
    {
      forall id :: id in codes ==> IsCode(codes[id], config.codeLength, config.lowercase)
    }

    /** `Init`: reads the data file; no code is pending; chooses the hook subscriptions. */
    constructor Init(config: Config, stored: map<string, string>, group: set<string>)
      ensures Valid()
      ensures this.config == config && this.stored == stored && this.group == group
      ensures codes == map[] && links == stored && roleLog == []
      ensures memberAddedSubscribed == config.removeFromGroup
    {
      this.config := config;
      this.stored := stored;
      this.group := group;
      codes := map[];
      links := stored;
      roleLog := [];
      memberAddedSubscribed := config.removeFromGroup;
    }

    /**
     * `/auth`: without permission, or when already linked, nothing
     * changes; a pending code is sent again as it is; otherwise a new code
     * is stored and its expiry timer started.
     */
    method AuthCommand(id: string, hasPermission: bool, draws: seq<nat>) returns (reply: AuthReply)
      requires Valid() && ValidDraws(draws, config.codeLength)
      modifies this`codes
      ensures Valid()
      ensures !hasPermission ==> reply == AuthNoPermission && codes == old(codes)
      ensures hasPermission && id in links ==> reply == AuthAlreadyLinked && codes == old(codes)
      ensures hasPermission && id !in links && id in old(codes) ==>
                reply == CodeGeneration(old(codes)[id], false) && codes == old(codes)
      ensures hasPermission && id !in links && id !in old(codes) ==>
                reply == CodeGeneration(CodeOf(draws, config.lowercase), true)
                && codes == old(codes)[id := CodeOf(draws, config.lowercase)]
    {
      if !hasPermission {
        return AuthNoPermission;
      }
      if id in links {
        return AuthAlreadyLinked;
      }
      if id in codes {
        return CodeGeneration(codes[id], false);
      }
      var code := GenerateCode(config.codeLength, config.lowercase, draws);
      assert code == CodeOf(draws, config.lowercase);
      codes := codes[id := code];
      reply := CodeGeneration(code, true);
    }

    /** The expiry timer of `id`'s code: removes the code if it is still there. */
    method Expire(id: string) returns (notified: bool)
      requires Valid()
      modifies this`codes
      ensures Valid()
      ensures codes == old(codes) - {id}
      ensures notified == (id in old(codes))   // "Code Expired" is sent
    {
      notified := id in codes;
      if notified {
        codes := codes - {id};
      }
    }

    /**
     * `Authenticate`: a non-null `OnAuthenticate` hook result cancels it;
     * otherwise the link is added, which throws when the Steam id is
     * already linked, and then the Steam id joins the group.
     */
    method Authenticate(steamId: string, discordId: string, vetoed: bool) returns (r: AuthOutcome)
      modifies this`links, this`group
      ensures vetoed ==> r == Vetoed && links == old(links) && group == old(group)
      ensures !vetoed && steamId in old(links) ==> r == AddThrew && links == old(links) && group == old(group)
      ensures !vetoed && steamId !in old(links) ==>
                r == Linked && links == old(links)[steamId := discordId] && group == old(group) + {steamId}
    {
      if vetoed {
        return Vetoed;
      }
      if steamId in links {
        return AddThrew;
      }
      links := links[steamId := discordId];
      group := group + {steamId};
      r := Linked;
    }

    /**
     * `Deauthenticate`: a non-null `OnDeauthenticate` hook result cancels
     * it; otherwise the link (if any) is removed and the Steam id leaves the
     * group. Calling it again changes nothing.
     */
    method Deauthenticate(steamId: string, vetoed: bool)
      modifies this`links, this`group
      ensures vetoed ==> links == old(links) && group == old(group)
      ensures !vetoed ==> links == old(links) - {steamId} && group == old(group) - {steamId}
    {
      if !vetoed {
        links := links - {steamId};
        group := group - {steamId};
      }
    }

    /** `HandleRoles`: one role operation (or error) per configured role name. */
    method HandleRoles(user: string, mode: MemberRole, roles: seq<Role>)
      modifies this`roleLog
      ensures roleLog == old(roleLog) + RoleEffects(user, config.roles, roles, mode)
    {
      var names := config.roles;
      var i := 0;
      while i < |names|
        invariant 0 <= i <= |names|
        invariant roleLog == old(roleLog) + RoleEffects(user, names[..i], roles, mode)
      {
        RoleEffectsSnoc(user, names, roles, mode, i);
        HandleRole(user, names[i], mode, roles);
        i := i + 1;
      }
      assert names[..i] == names;
    }

    /** The body of the `HandleRoles` loop: the role of that name is given or taken, or reported missing. */
    method HandleRole(user: string, name: string, mode: MemberRole, roles: seq<Role>)
      modifies this`roleLog
      ensures roleLog == old(roleLog) + [RoleEffectFor(user, name, roles, mode)]
    {
      var role := GetRoleByName(roles, name);
      var e := if role.Some? then Apply(user, role.value, mode) else RoleMissing(name);
      roleLog := roleLog + [e];
    }

    /**
     * `Discord_MessageCreate` with its channel callback. Messages from
     * bots, outside a DM channel or of the wrong length (in UTF-16 code
     * units, as .NET counts it) are ignored; an
     * unknown code, or an author who is already a link value, gets a reply
     * and changes nothing; otherwise the match loop links every requester
     * holding the code (the codes stay pending), and unless it threw the
     * author gets the roles and the reply "Authenticated", even when every
     * `Authenticate` was vetoed.
     */
    method MessageCreate(author: string, authorIsBot: bool, isDm: bool, content: string,
                         order: seq<string>, vetoed: set<string>, roles: seq<Role>)
      returns (o: DmOutcome)
      requires Valid() && IsEnumeration(order, codes.Keys)
      modifies this`links, this`group, this`roleLog
      ensures Valid()
      ensures authorIsBot || !isDm || Text.Utf16Length(content) != config.codeLength ==>
                o == Ignored && links == old(links) && group == old(group) && roleLog == old(roleLog)
      ensures !authorIsBot && isDm && Text.Utf16Length(content) == config.codeLength && content !in codes.Values ==>
                o == UnableToFindCode && links == old(links) && group == old(group) && roleLog == old(roleLog)
      ensures !authorIsBot && isDm && Text.Utf16Length(content) == config.codeLength && content in codes.Values
              && author in old(links).Values ==>
                o == DmAlreadyAuthenticated && links == old(links) && group == old(group) && roleLog == old(roleLog)
      ensures !authorIsBot && isDm && Text.Utf16Length(content) == config.codeLength && content in codes.Values
              && author !in old(links).Values ==>
                var c := CommitMatches(order, codes, content, author, vetoed, old(links), old(group));
                && links == c.links && group == c.group
                && (c.fault.Some? ==> o == Faulted(c.fault.value) && roleLog == old(roleLog))
                && (c.fault.None? ==> o == Authenticated
                                      && roleLog == old(roleLog) + RoleEffects(author, config.roles, roles, Add))
    {
      if authorIsBot || !isDm || Text.Utf16Length(content) != config.codeLength {
        return Ignored;
      }
      if content !in codes.Values {
        return UnableToFindCode;
      }
      if author in links.Values {
        return DmAlreadyAuthenticated;
      }
      var fault := MatchLoop(author, content, order, vetoed);
      if fault.Some? {
        return Faulted(fault.value);
      }
      HandleRoles(author, Add, roles);
      o := Authenticated;
    }

    /**
     * The `ForEach` over the pending codes: `Authenticate` for every
     * requester whose code is the message, in enumeration order, until an
     * `Add` throws.
     */
    method MatchLoop(author: string, content: string, order: seq<string>, vetoed: set<string>)
      returns (fault: Option<string>)
      requires forall i :: 0 <= i < |order| ==> order[i] in codes
      modifies this`links, this`group
      ensures var c := CommitMatches(order, codes, content, author, vetoed, old(links), old(group));
              links == c.links && group == c.group && fault == c.fault
    {
      var i := 0;
      while i < |order|
        invariant 0 <= i <= |order|
        invariant CommitMatches(order, codes, content, author, vetoed, old(links), old(group))
               == CommitMatches(order[i..], codes, content, author, vetoed, links, group)
      {
        assert order[i..][1..] == order[i + 1..];
        var k := order[i];
        if codes[k] == content {
          var r := Authenticate(k, author, k in vetoed);
          if r == AddThrew {
            return Some(k);
          }
        }
        i := i + 1;
      }
      return None;
    }

    /**
     * `/deauth`: needs permission and a link; asks for the configured roles
     * to be taken from the linked Discord user, calls `Deauthenticate`, and
     * replies success even when the hook vetoed it.
     */
    method DeauthCommand(id: string, hasPermission: bool, vetoed: bool, roles: seq<Role>)
      returns (reply: DeauthReply)
      modifies this`links, this`group, this`roleLog
      ensures !hasPermission ==>
                reply == DeauthNoPermission && links == old(links) && group == old(group) && roleLog == old(roleLog)
      ensures hasPermission && id !in old(links) ==>
                reply == NotAuthenticated && links == old(links) && group == old(group) && roleLog == old(roleLog)
      ensures hasPermission && id in old(links) ==>
                && reply == GameDeauthenticated
                && roleLog == old(roleLog) + RoleEffects(old(links)[id], config.roles, roles, Remove)
                && (vetoed ==> links == old(links) && group == old(group))
                && (!vetoed ==> links == old(links) - {id} && group == old(group) - {id})
    {
      if !hasPermission {
        return DeauthNoPermission;
      }
      if id !in links {
        return NotAuthenticated;
      }
      HandleRoles(links[id], Remove, roles);
      Deauthenticate(id, vetoed);
      reply := GameDeauthenticated;
    }

    /**
     * `Discord_MemberRemoved`: nothing for an unlinked user; otherwise the
     * first Steam id linked to the user is deauthenticated when so
     * configured, else only removed from the group when so configured.
     * No path touches the user's Discord roles (`roleLog` is not in the
     * frame). Unsubscribing the hook when both options are off changes
     * nothing observable, since the handler then does nothing anyway.
     */
    method MemberRemoved(discordId: string, order: seq<string>, vetoed: bool) returns (o: LeaveOutcome)
      requires IsEnumeration(order, links.Keys)
      modifies this`links, this`group
      ensures var s := FirstWithValue(order, old(links), discordId);
        && (s.None? ==> o == LeaverNotLinked && links == old(links) && group == old(group))
        && (s.Some? && config.deauthenticate ==>
              && o == LeaverDeauthenticated(s.value)
              && (vetoed ==> links == old(links) && group == old(group))
              && (!vetoed ==> links == old(links) - {s.value} && group == old(group) - {s.value}))
        && (s.Some? && !config.deauthenticate && config.removeFromGroup ==>
              o == LeaverGroupRevoked(s.value) && links == old(links) && group == old(group) - {s.value})
        && (s.Some? && !config.deauthenticate && !config.removeFromGroup ==>
              o == LeaverKept(s.value) && links == old(links) && group == old(group))
    {
      var steamId := GetSteam(links, order, discordId);
      if steamId.None? {
        return LeaverNotLinked;
      }
      if config.deauthenticate {
        Deauthenticate(steamId.value, vetoed);
        return LeaverDeauthenticated(steamId.value);
      }
      if config.removeFromGroup {
        group := group - {steamId.value};
        return LeaverGroupRevoked(steamId.value);
      }
      o := LeaverKept(steamId.value);
    }

    /**
     * `Discord_MemberAdded` (subscribed only when the group is revoked on
     * leave): a returning linked user gets the roles again and the first
     * Steam id linked to it rejoins the group.
     */
    method MemberAdded(discordId: string, order: seq<string>, roles: seq<Role>) returns (o: JoinOutcome)
      requires IsEnumeration(order, links.Keys)
      modifies this`group, this`roleLog
      ensures !memberAddedSubscribed ==> o == JoinUnsubscribed && group == old(group) && roleLog == old(roleLog)
      ensures memberAddedSubscribed ==>
        var s := FirstWithValue(order, links, discordId);
        && (s.None? ==> o == JoinerNotLinked && group == old(group) && roleLog == old(roleLog))
        && (s.Some? ==> o == JoinerGranted(s.value) && group == old(group) + {s.value}
                        && roleLog == old(roleLog) + RoleEffects(discordId, config.roles, roles, Add))
    {
      if !memberAddedSubscribed {
        return JoinUnsubscribed;
      }
      var steamId := GetSteam(links, order, discordId);
      if steamId.None? {
        return JoinerNotLinked;
      }
      HandleRoles(discordId, Add, roles);
      group := group + {steamId.value};
      o := JoinerGranted(steamId.value);
    }

    /** `SaveData`, run by `Unload` and `OnServerSave`: the data file gets the current links. */
    method SaveData()
      modifies this`stored
      ensures stored == links
    {
      stored := links;
    }

    /**
     * The periodic `oxide.reload`: `Unload` saves the links, `Init` reads
     * them back into a fresh instance whose pending codes are gone.
     */
    method Reload()
      modifies this`stored, this`codes, this`links
      ensures Valid()
      ensures stored == old(links) && links == old(links) && codes == map[]
    {
      SaveData();
      links := stored;
      codes := map[];
    }
  }
}
