# Oxide plugins — a Dafny model

This project models nine Oxide/uMod game-server plugins in Dafny and
proves properties of the models.

- **Discord Auth** links a game (Steam) account to a Discord account:
  - a player asks in game for a short letter code;
  - a Discord user who sends that code to the bot in a direct message is linked;
  - linking adds the player to an Oxide group and gives them Discord roles;
  - links are undone by command, or, when the configuration says so, when the Discord user leaves the guild.
- **Discord Role Sync** gives or takes the Discord roles configured for an Oxide group when a player joins or leaves it.
- **Discord Status** rotates the bot's presence through configured status lines, with placeholders filled in.
- **Chat Notice** plays a notification sound for the receivers of private, clan and global messages, with per-channel cooldowns.
- **Death Chat** marks a recently killed player's chat messages with a death prefix.
- **Starter Money** pays first-time players from up to three currency plugins, once.
- **Emotions** toggles a gesture menu and converts its hex colours.
- **Server Chat** re-broadcasts server messages in a configured style, unless they contain protected text.
- **Easy Research** refuses research of known or blocked items, and tells the player why.

## How the plugins are modelled

Each plugin is one module.

- A plugin with state is a `class` whose fields are the plugin's
  collections. Each hook becomes a method that states the new state.
- A pure hook (Server Chat, Easy Research) is a function.

The world outside each plugin is made explicit:

- **Other plugins and Discord.**
  - Another plugin's answer is an input: a veto hook's result, `Deposit`'s success, the Discord Auth link map.
  - Discord operations are entries of an append-only log (`roleLog`, `presences`).
- **Timers.** A timer that fires is an event method the environment calls.
  - In Chat Notice and Death Chat all timers of one kind run for the same configured time, so they fire in the order they were set. There the event method pops the oldest entry of a queue of pending timers.
  - In Discord Auth the code-expiry timer is `Expire(id)`, callable for any id at any time. When the id's code is already gone it changes nothing.
- **Dictionary order.** C# `Dictionary` enumeration order is a parameter `order` that enumerates the key set.
- **Loops.** Loops stay loops, and each is proved against a specification function:
  - the `foreach` over pending codes;
  - the `ForEach` over clan members, connected players and permissions;
  - the role-setup `for`;
  - the random do-while.

Some pieces are shared between modules:

- `Wrappers`: `Option`.
- `Lists`: the `List.Remove` and `Distinct` helpers.
- `Text`: `String.Replace`, `Contains` and integer `ToString`.
- `Discord`: guild roles and role operations.

Three behaviours of the Discord Auth code are worth knowing:

- **A matched code stays pending.** The match loop (DiscordAuth.cs:265-271) does not remove the code from `Codes`. The code stays until its expiry timer fires, so once the first submission has linked them, a second submission by the same Discord user gets "Already Authenticated". A first submission whose matches were all vetoed, or whose `Add` threw before linking the author, leaves the author unlinked, and a second one runs the match loop again.
- **A veto still replies "Authenticated".** When `OnAuthenticate` vetoes every match, the author still gets the roles and the reply "Authenticated".
- **Links are not one-to-one.** Two players holding the same code are both linked to the one Discord user who sends it (`SharedCodeLinksBoth`).

Discord Status in random mode hangs with one or two statuses. `Random.Range(0, Count - 1)` excludes its upper bound, so every draw is 0. Once status 0 is shown, the do-while never finds another index (`FewStatusesRandomStall`).

## Model

| member | source | states |
|---|---|---|
| DiscordAuth.GenerateCode | Oxide.Plugins/DiscordAuth.cs:476-492 | The code has the configured length (none for a non-positive one). Each character is the letter of its draw, upper case or lower-cased as configured. |
| DiscordAuth.CodeOfIsCode | Oxide.Plugins/DiscordAuth.cs:476-492 | Every draw sequence the generator accepts yields a well-formed code. |
| DiscordAuth.CodeLengthUtf16 | Oxide.Plugins/DiscordAuth.cs:248 | A well-formed code has as many UTF-16 code units as characters, namely the configured length, so sending it back passes the length check. |
| DiscordAuth.ToLower | Oxide.Plugins/DiscordAuth.cs:489 | Lower-casing keeps the length and maps each character on its own: each of `A`-`Z` to its lower-case partner. Unlike `String.ToLower`, it keeps every other character, capitals outside `A`-`Z` included (see Left out). The code builder only ever holds `A`-`Z`, where the two agree. |
| DiscordAuth.FirstWithValue | Oxide.Plugins/DiscordAuth.cs:428-440 | The key found is linked to the value, and no earlier key in enumeration order is. None exactly when no key is linked to it. |
| DiscordAuth.GetSteam | Oxide.Plugins/DiscordAuth.cs:428-440 | `API_GetSteam` returns the first Steam id linked to the Discord id. It finds one exactly when the id is a link value. |
| DiscordAuth.EnumerationLength | Oxide.Plugins/DiscordAuth.cs:452-456 | An enumeration of the keys has as many entries as there are links. |
| DiscordAuth.SteamList | Oxide.Plugins/DiscordAuth.cs:454 | `API_GetSteamList` is the key enumeration itself: `API_GetAuthCount` entries, exactly the linked Steam ids, each once. |
| DiscordAuth.DiscordList | Oxide.Plugins/DiscordAuth.cs:456 | `API_GetDiscordList` has `API_GetAuthCount` entries. Entry i is the Discord id linked to entry i of `API_GetSteamList`, so a Discord id linked twice appears twice. Its entries are exactly the linked Discord ids. |
| DiscordAuth.LookupsAgree | Oxide.Plugins/DiscordAuth.cs:417-450 | `API_IsAuthenticated` holds exactly when `API_GetDiscord` or `API_GetSteam` finds a partner. |
| DiscordAuth.IsAuthenticated | Oxide.Plugins/DiscordAuth.cs:417-426 | True exactly when the id is a linked Steam id, or some Steam id is linked to it. |
| DiscordAuth.GetDiscord | Oxide.Plugins/DiscordAuth.cs:442-450 | A Discord id exactly when the Steam id is linked, and then the one it is linked to. |
| DiscordAuth.AuthCount | Oxide.Plugins/DiscordAuth.cs:452 | The number of links, which is the length of every enumeration of the linked Steam ids. |
| DiscordAuth.CommitMatches | Oxide.Plugins/DiscordAuth.cs:265-271 | The match loop never alters or drops an existing link, and never removes anyone from the group. Every link it adds goes to the author, for a Steam id that joins the group. The id whose `Add` threw is linked. |
| DiscordAuth.GetRoleByName | Oxide.Plugins/DiscordAuth.cs:505-514 | None exactly when no guild role has the name; otherwise the first role with that name. |
| DiscordAuth.CommitFaultIff | Oxide.Plugins/DiscordAuth.cs:265-273 | The match loop throws exactly when a requester it would link (its code matches and it is not vetoed) is already linked. The reported id is such a requester. |
| DiscordAuth.CommitLinksAll | Oxide.Plugins/DiscordAuth.cs:265-273 | When the loop does not throw, every matching, non-vetoed requester is linked to the author and joins the group. Every other link is unchanged. |
| DiscordAuth.SharedCodeLinksBoth | Oxide.Plugins/DiscordAuth.cs:265-273 | Two requesters holding the same code are both linked to the Discord user who sends it. |
| DiscordAuth.DiscordAuth.Init | Oxide.Plugins/DiscordAuth.cs:202-222 | The links are the data file's, no code is pending and the role log is empty. The member-added hook stays subscribed exactly when the group is revoked on leave. |
| DiscordAuth.DiscordAuth.AuthCommand | Oxide.Plugins/DiscordAuth.cs:141-178 | The four cases: no permission; already linked; a pending code resent unchanged; a new code stored under the player's id. Every pending code stays well formed. |
| DiscordAuth.DiscordAuth.Expire | Oxide.Plugins/DiscordAuth.cs:170-177 | The expiry timer removes the id's code. "Code Expired" is sent exactly when a code was still pending. |
| DiscordAuth.DiscordAuth.Authenticate | Oxide.Plugins/DiscordAuth.cs:320-327 | A veto changes nothing. Linking an already-linked Steam id throws and changes nothing. Otherwise the link is added and the id joins the group. |
| DiscordAuth.DiscordAuth.Deauthenticate | Oxide.Plugins/DiscordAuth.cs:329-336 | A veto changes nothing. Otherwise the link and the group membership of the id are removed. |
| DiscordAuth.DiscordAuth.HandleRoles | Oxide.Plugins/DiscordAuth.cs:338-360 | One role operation or missing-role report per configured role name, in order. |
| DiscordAuth.DiscordAuth.HandleRole | Oxide.Plugins/DiscordAuth.cs:342-357 | One role name: the first guild role of that name is given or taken, or a missing-role report is logged. |
| DiscordAuth.DiscordAuth.MatchLoop | Oxide.Plugins/DiscordAuth.cs:265-271 | The new links, group and thrown id are those of `CommitMatches` over the pending codes in enumeration order. |
| DiscordAuth.DiscordAuth.MessageCreate | Oxide.Plugins/DiscordAuth.cs:235-276 | Bots, non-DM channels and wrong lengths are ignored; the length counts UTF-16 code units, as `String.Length` does. An unknown code or an already-linked author changes nothing. Otherwise the links and group are the match loop's result: a throw stops before the roles; no throw grants the roles and replies "Authenticated". |
| DiscordAuth.DiscordAuth.DeauthCommand | Oxide.Plugins/DiscordAuth.cs:180-198 | No permission or no link changes nothing. Otherwise the roles are removed from the linked Discord user and `Deauthenticate` runs, vetoed or not. |
| DiscordAuth.DiscordAuth.MemberRemoved | Oxide.Plugins/DiscordAuth.cs:279-300 | For the first Steam id linked to the leaver: deauthenticate when configured; else leave the group when configured; else nothing. Roles are never touched. |
| DiscordAuth.DiscordAuth.MemberAdded | Oxide.Plugins/DiscordAuth.cs:302-313 | Subscribed only when the group is revoked on leave. A returning linked user gets the roles again and its first Steam id rejoins the group. |
| DiscordAuth.DiscordAuth.SaveData | Oxide.Plugins/DiscordAuth.cs:224-230 | The data file gets the current links. |
| DiscordAuth.DiscordAuth.Reload | Oxide.Plugins/DiscordAuth.cs:470 | A reload keeps the links through the data file and drops every pending code. |
| Discord.FirstRoleNamed | Oxide.Plugins/DiscordAuth.cs:505-514 | The index of the first guild role named exactly so, or None when there is none. |
| Discord.RoleEffects | Oxide.Plugins/DiscordAuth.cs:338-360 | One entry per role name, in order. A name gives a missing-role report exactly when no guild role has it. Otherwise the first role with that name is given or taken, as the mode says. |
| DiscordRoleSync.GetDiscord | Oxide.Plugins/DiscordRoleSync.cs:133 | A Discord id exactly when Discord Auth is loaded and the Steam id is linked, and then the one it is linked to. |
| DiscordRoleSync.GetRoleIDByName | Oxide.Plugins/DiscordRoleSync.cs:135-144 | The id of the first guild role with the name. None exactly when there is none. |
| DiscordRoleSync.MatchingExactly | Oxide.Plugins/DiscordRoleSync.cs:90-108 | The roles processed for a group are exactly the Discord roles of the setup entries for that group. |
| DiscordRoleSync.GroupEffectsLinked | Oxide.Plugins/DiscordRoleSync.cs:90-129 | For a linked player, the log gets one `ManageRole` entry per matching setup entry, in configuration order. |
| DiscordRoleSync.GroupEffectsUnlinked | Oxide.Plugins/DiscordRoleSync.cs:112-133 | No linked account, or no Discord Auth: no role change. |
| DiscordRoleSync.GroupEffectsNoMatch | Oxide.Plugins/DiscordRoleSync.cs:90-108 | A group no setup entry names causes no role change. |
| DiscordRoleSync.AddRemoveMirror | Oxide.Plugins/DiscordRoleSync.cs:90-129 | Joining and leaving a group ask for the same roles in the same order: each grant becomes a revoke, and missing-role reports stay. |
| DiscordRoleSync.DiscordRoleSync.constructor | Oxide.Plugins/DiscordRoleSync.cs:14 | The plugin starts with the given configuration and an empty role log. |
| DiscordRoleSync.DiscordRoleSync.ManageRole | Oxide.Plugins/DiscordRoleSync.cs:112-129 | Nothing when unlinked; a report for an unknown role; otherwise the role is added, or removed when asked. |
| DiscordRoleSync.DiscordRoleSync.SyncGroup | Oxide.Plugins/DiscordRoleSync.cs:90-108 | The log gets the effects of the whole role-setup loop. |
| DiscordRoleSync.DiscordRoleSync.OnUserGroupAdded | Oxide.Plugins/DiscordRoleSync.cs:90-98 | The group's roles are given. |
| DiscordRoleSync.DiscordRoleSync.OnUserGroupRemoved | Oxide.Plugins/DiscordRoleSync.cs:100-108 | The group's roles are taken. |
| DiscordStatus.StatusTypeMapping | Oxide.Plugins/DiscordStatus.cs:135-153 | The four type names map one-to-one to the four activity kinds with no error. Any other name logs the error and falls back to the default kind. |
| DiscordStatus.GetStatusType | Oxide.Plugins/DiscordStatus.cs:135-153 | The error is logged exactly when the name is not one of the four. A known name gives the kind of that name; an unknown one gives the default kind. |
| DiscordStatus.Format | Oxide.Plugins/DiscordStatus.cs:155-165 | A status without `{` is shown as configured. |
| DiscordStatus.OtherPlaceholderAbsent | Oxide.Plugins/DiscordStatus.cs:157-164 | A placeholder that differs from `{players.authenticated}` after its `{` leaves alone a text whose every `{` opens `{players.authenticated}`. |
| DiscordStatus.OtherPlaceholdersAbsent | Oxide.Plugins/DiscordStatus.cs:158-163 | None of the first six placeholders changes such a text. |
| DiscordStatus.FormatAuthOnly | Oxide.Plugins/DiscordStatus.cs:155-165 | A status whose every `{` opens `{players.authenticated}` is changed by that placeholder alone. Each occurrence shows the link count, or `{unknown}` without Discord Auth. |
| DiscordStatus.AuthPlaceholderInside | Oxide.Plugins/DiscordStatus.cs:164 | A status with one `{players.authenticated}` anywhere and no other `{` shows the text around it with the link count, or `{unknown}` without Discord Auth, in its place. |
| DiscordStatus.AuthPlaceholder | Oxide.Plugins/DiscordStatus.cs:164 | A status that is `{players.authenticated}` followed by text without `{` shows the link count, or `{unknown}` without Discord Auth, followed by that text. The default status "{players.authenticated} Linked Account(s)" is one. |
| DiscordStatus.FirstOther | Oxide.Plugins/DiscordStatus.cs:129-130 | The do-while ends with the first drawn value that differs from the current index: every draw before it equals the current index. It loops on while every draw equals the current index. |
| DiscordStatus.FirstRound | Oxide.Plugins/DiscordStatus.cs:123-126 | Starting from -1, tick n of the first round shows status n-1. |
| DiscordStatus.RotationPeriod | Oxide.Plugins/DiscordStatus.cs:125-126 | The sequential rotation repeats every `Status.Count` ticks. |
| DiscordStatus.FewStatusesRandomStall | Oxide.Plugins/DiscordStatus.cs:127-131 | With one or two statuses in random mode every draw is 0. The first tick shows status 0, and from then on the do-while never exits. |
| DiscordStatus.DiscordStatus.constructor | Oxide.Plugins/DiscordStatus.cs:27 | The rotation index starts at -1, before the first status, and no presence or error has been sent. |
| DiscordStatus.DiscordStatus.GetStatusIndex | Oxide.Plugins/DiscordStatus.cs:123-133 | Sequential: the next index modulo the count. Random: the first draw differing from the last index. With two or more statuses the last one is never picked. |
| DiscordStatus.UnknownTypeError | Oxide.Plugins/DiscordStatus.cs:137-138 | The error printed for an unknown status type names that type. |
| DiscordStatus.DiscordStatus.UpdateStatus | Oxide.Plugins/DiscordStatus.cs:102-121 | No statuses: nothing. Otherwise the presence shows the formatted status at the chosen index, with the configured type, and that index is stored. Every shown tick with an unknown status type logs the unknown-type error, and no other tick logs anything. |
| ChatNotice.ClanRecipients | Oxide.Plugins/ChatNotice.cs:169-177 | Every clan member passed on to `RunEffect` passes the permission test. |
| ChatNotice.GlobalRecipients | Oxide.Plugins/ChatNotice.cs:194-200 | Every connected player passed on to `RunEffect` passes the permission test and is not the sender. |
| ChatNotice.ScheduledAppend | Oxide.Plugins/ChatNotice.cs:204-232 | A newly set timer adds its user to its own channel's pending ids only. |
| ChatNotice.Step | Oxide.Plugins/ChatNotice.cs:204-232 | Nothing changes exactly when the receiver has no game object, or the cooldown is on and the receiver is already listed. Otherwise the player is appended to the channel's list, a timer is set and the sound plays. Other channels' lists are never touched. |
| ChatNotice.ChannelsIndependent | Oxide.Plugins/ChatNotice.cs:211-227 | A notice leaves the other channels' lists alone. Whether it plays depends only on its own channel's list. |
| ChatNotice.NoCooldownRepeats | Oxide.Plugins/ChatNotice.cs:212-214 | With the cooldown off, every notice plays and lists the player once more. |
| ChatNotice.StepConsistent | Oxide.Plugins/ChatNotice.cs:204-232 | `RunEffect` keeps its invariant: each list entry has one pending removal timer, and with the cooldown on no list holds a player twice. |
| ChatNotice.FoldConsistent | Oxide.Plugins/ChatNotice.cs:169-177 | A run of `RunEffect`s keeps the invariant. |
| ChatNotice.FoldLeavesOthers | Oxide.Plugins/ChatNotice.cs:169-200 | A player who is not a receiver hears nothing, and their list entries are unchanged. |
| ChatNotice.GlobalSkipsSender | Oxide.Plugins/ChatNotice.cs:197 | A global message never plays the sound for its sender. |
| ChatNotice.UnpermittedSkipped | Oxide.Plugins/ChatNotice.cs:173-196 | A player failing the permission test is never a clan or global recipient. |
| ChatNotice.FoldSnoc | Oxide.Plugins/ChatNotice.cs:169-177 | One receiver more at the end is one `RunEffect` more. |
| ChatNotice.ClanStep | Oxide.Plugins/ChatNotice.cs:169-177 | One clan member more is one `RunEffect` more, exactly when the member is found and permitted. |
| ChatNotice.GlobalStep | Oxide.Plugins/ChatNotice.cs:194-200 | One connected player more is one `RunEffect` more, exactly when permitted and not the sender. |
| ChatNotice.ChatNotice.constructor | Oxide.Plugins/ChatNotice.cs:75-89 | Starts with empty cooldown lists, no timers and no sounds. |
| ChatNotice.ChatNotice.RunEffect | Oxide.Plugins/ChatNotice.cs:204-232 | The new state is that of the cooldown gate, and the invariant is kept. |
| ChatNotice.ChatNotice.OnPMProcessed | Oxide.Plugins/ChatNotice.cs:145-154 | With PM notices on and the permission test passed, the receiver gets `RunEffect`; otherwise nothing changes. |
| ChatNotice.ChatNotice.ClanMember | Oxide.Plugins/ChatNotice.cs:169-176 | A found, permitted member gets `RunEffect`; otherwise nothing changes. |
| ChatNotice.ChatNotice.GlobalTarget | Oxide.Plugins/ChatNotice.cs:194-199 | A permitted player who is not the sender gets `RunEffect`; otherwise nothing changes. |
| ChatNotice.ChatNotice.ForEachClanMember | Oxide.Plugins/ChatNotice.cs:169-177 | The `ForEach` over the clan members is the fold of `RunEffect` over the clan recipients, in list order, and keeps the invariant. |
| ChatNotice.ChatNotice.ForEachConnected | Oxide.Plugins/ChatNotice.cs:194-200 | The `ForEach` over the connected players is the fold of `RunEffect` over the global recipients, in connection order, and keeps the invariant. |
| ChatNotice.ChatNotice.OnClanChat | Oxide.Plugins/ChatNotice.cs:156-178 | With clan notices on and a member list present, every recipient gets `RunEffect` in list order; otherwise nothing changes. |
| ChatNotice.ChatNotice.OnPlayerChat | Oxide.Plugins/ChatNotice.cs:180-202 | With global notices on and a sending player, every recipient gets `RunEffect` in connection order; otherwise nothing changes. |
| ChatNotice.ChatNotice.CooldownElapsed | Oxide.Plugins/ChatNotice.cs:211-227 | The oldest timer removes one occurrence of its user from its own channel's list only, and the invariant is kept. |
| DeathChat.DeathTitle | Oxide.Plugins/DeathChat.cs:115 | The death title contains the prefix text. |
| DeathChat.ChatTitle | Oxide.Plugins/DeathChat.cs:100 | The broadcast title starts with the death title, and contains the prefix text and the player's name. |
| DeathChat.MarkedWhilePending | Oxide.Plugins/DeathChat.cs:78-90 | While each mark has its timer, a player is marked exactly when a timer for them is pending, and as many times as timers for them are pending. |
| DeathChat.TimerUnmarks | Oxide.Plugins/DeathChat.cs:84-87 | When the oldest timer fires, the player stays marked exactly when another of their deaths is still pending. |
| DeathChat.ChatData.constructor | Oxide.Plugins/DeathChat.cs:112 | The message data holds the given titles. |
| DeathChat.DeathChat.constructor | Oxide.Plugins/DeathChat.cs:65 | No player is marked, no timer is pending, and chat is subscribed. |
| DeathChat.DeathChat.OnServerInitialized | Oxide.Plugins/DeathChat.cs:70-74 | With Better Chat loaded the chat hook is unsubscribed. |
| DeathChat.DeathChat.OnPlayerDie | Oxide.Plugins/DeathChat.cs:78-90 | With "Track Player Kills Only" on, every death is tracked. With it off, only a death whose `HitEntity` is a player is tracked, and a null `HitInfo` throws and changes nothing. A tracked death marks the player once more and sets a timer. Each mark keeps its timer. |
| DeathChat.DeathChat.DeathTimerElapsed | Oxide.Plugins/DeathChat.cs:84-87 | The oldest timer removes one mark of its player. The player stays marked exactly when a later timer is pending for them. |
| DeathChat.DeathChat.OnPlayerChat | Oxide.Plugins/DeathChat.cs:93-105 | Unmarked player or unsubscribed hook: null, no broadcast. Marked player: the message is broadcast under the death title and the hook answers true. |
| DeathChat.DeathChat.OnBetterChat | Oxide.Plugins/DeathChat.cs:107-120 | Unmarked player: null, no change. Marked player: the death title is appended to the titles and the same data is returned. |
| StarterMoney.NewPermissions | Oxide.Plugins/StarterMoney.cs:91-95 | The permissions registered are exactly the configured ones that did not exist yet. |
| StarterMoney.CopiesAppend | Oxide.Plugins/StarterMoney.cs:145-162 | Ledger entries of two runs of payments join up. |
| StarterMoney.CopiesMember | Oxide.Plugins/StarterMoney.cs:145-162 | n ledger entries for a player contain that player exactly when n is positive, and nobody else. |
| StarterMoney.SuccessesAppend | Oxide.Plugins/StarterMoney.cs:145-162 | The success count of two runs of calls is the sum of their counts. |
| StarterMoney.PermCallsExactly | Oxide.Plugins/StarterMoney.cs:124-131 | A held permission is paid once by every enabled and loaded provider, and by no other. |
| StarterMoney.PaidAppend | Oxide.Plugins/StarterMoney.cs:145-162 | The ledger entries of two runs of calls join up. |
| StarterMoney.PaidCopies | Oxide.Plugins/StarterMoney.cs:145-162 | Calls paying one player add that player once per success. |
| StarterMoney.ConnectCallsPlayer | Oxide.Plugins/StarterMoney.cs:119-132 | Every planned call of a connect pays the connecting player. |
| StarterMoney.ConnectCallsExactly | Oxide.Plugins/StarterMoney.cs:119-132 | The planned calls of a connect, which it makes in full when nothing throws, pay exactly the held configured permissions, from exactly the enabled and loaded providers. |
| StarterMoney.ConnectCallsDistinct | Oxide.Plugins/StarterMoney.cs:119-132 | A connect's planned calls pay each permission at most once per provider. |
| StarterMoney.TwoSuccessesTwoEntries | Oxide.Plugins/StarterMoney.cs:145-156 | With two providers, one first connect makes two calls. When both succeed, the player enters the ledger twice. |
| StarterMoney.AfterAfter | Oxide.Plugins/StarterMoney.cs:145-162 | Two runs of payments make one run of both. |
| StarterMoney.AfterNothing | Oxide.Plugins/StarterMoney.cs:145-162 | No calls change nothing. |
| StarterMoney.PayFromEffect | Oxide.Plugins/StarterMoney.cs:124-131 | One provider's step logs its call and the ledger entry that call earns. |
| StarterMoney.PermRun | Oxide.Plugins/StarterMoney.cs:121-131 | One held permission throws exactly when its Server Rewards conversion or its Cash System parse does. Its calls are a prefix of the planned ones, and all of them when nothing throws. |
| StarterMoney.ConnectRun | Oxide.Plugins/StarterMoney.cs:119-132 | The calls a connect makes are a prefix of the planned calls, and all of them when nothing throws. |
| StarterMoney.PrefixExtended | Oxide.Plugins/StarterMoney.cs:119-132 | A prefix stays a prefix when the sequence is extended. |
| StarterMoney.PrefixJoined | Oxide.Plugins/StarterMoney.cs:119-132 | Prefixes are kept by putting the same calls in front. |
| StarterMoney.GiveForEffect | Oxide.Plugins/StarterMoney.cs:121-131 | One permission logs the calls it makes before any throw and their ledger entries, or nothing when not held, and throws when its run does. |
| StarterMoney.ConnectEffect | Oxide.Plugins/StarterMoney.cs:119-132 | A connect logs exactly the calls it makes and their ledger entries, and throws exactly when its run does. |
| StarterMoney.ConnectRunThrows | Oxide.Plugins/StarterMoney.cs:119-132 | A connect throws exactly when some held permission has a Server Rewards amount outside `int` or meets a Cash System parse failure. |
| StarterMoney.ConnectRunStep | Oxide.Plugins/StarterMoney.cs:119-132 | A connect throws exactly when the connect over all but its last permission did, or that last held permission throws. |
| StarterMoney.ThrewStays | Oxide.Plugins/StarterMoney.cs:119-132 | Once a permission has thrown, the later permissions add nothing. |
| StarterMoney.ConnectRunPlayer | Oxide.Plugins/StarterMoney.cs:119-132 | Every call a connect makes pays the connecting player. |
| StarterMoney.ConnectLedger | Oxide.Plugins/StarterMoney.cs:114-133 | The ledger gains the player once per call made that succeeded, and nothing else. |
| StarterMoney.ThrowLosesPayments | Oxide.Plugins/StarterMoney.cs:119-162 | A throw only loses payments: the ledger after it, plus one entry per success among the skipped calls, is the ledger of an uninterrupted connect. |
| StarterMoney.LedgerRejoined | Oxide.Plugins/StarterMoney.cs:145-162 | The ledger entries for the calls made, followed by those for the skipped calls, are the entries for all the calls. |
| StarterMoney.UnparsedIdStopsConnect | Oxide.Plugins/StarterMoney.cs:119-162 | With Economics and Cash System on, an id that `ulong.Parse` rejects stops the connect after the first Economics payment, and the second permission is not paid. |
| StarterMoney.ConnectOnce | Oxide.Plugins/StarterMoney.cs:114-117 | After a first connect the player is in the ledger, and never paid again, exactly when some payment succeeded. |
| StarterMoney.StarterMoney.Init | Oxide.Plugins/StarterMoney.cs:87-96 | The ledger is the data file's. Every configured permission ends up registered, and only the missing ones are registered, in order. |
| StarterMoney.StarterMoney.TryGive | Oxide.Plugins/StarterMoney.cs:145-162 | The Cash System step throws exactly when the id does not parse, and then changes nothing. Otherwise the call is logged and the player is recorded when it succeeds. |
| StarterMoney.StarterMoney.GivePermission | Oxide.Plugins/StarterMoney.cs:121-131 | One permission: nothing when not held. Otherwise each enabled and loaded provider pays in turn, stopping with a throw at an amount outside `int` for Server Rewards or an unparsed id for Cash System. |
| StarterMoney.StarterMoney.OnUserConnected | Oxide.Plugins/StarterMoney.cs:114-133 | Nothing for a player in the ledger. Otherwise the state is one connect, permission by permission in enumeration order, ending at the first throw with everything before it kept. |
| StarterMoney.StarterMoney.OnNewSave | Oxide.Plugins/StarterMoney.cs:135-141 | The ledger is cleared exactly when configured. |
| StarterMoney.StarterMoney.SaveData | Oxide.Plugins/StarterMoney.cs:83 | The data file gets the ledger. |
| Emotions.HexValue | Oxide.Plugins/Emotions.cs:258-262 | A hex digit's value is below 16. |
| Emotions.ParseByte | Oxide.Plugins/Emotions.cs:258-262 | `byte.Parse` with `HexNumber` of a pair gives a byte below 256. |
| Emotions.TrimStart | Oxide.Plugins/Emotions.cs:248 | Exactly the leading `#`s are removed. |
| Emotions.TrimEnd | Oxide.Plugins/Emotions.cs:248 | Exactly the trailing `#`s are removed. |
| Emotions.Normalize | Oxide.Plugins/Emotions.cs:243-256 | The result is eight UTF-16 code units. It fails for a non-empty input exactly when the trimmed string has neither 6 nor 8 code units. |
| Emotions.ParseColor | Oxide.Plugins/Emotions.cs:258-263 | Four parsed bytes, each below 256, or a parse failure. |
| Emotions.HexToColor | Oxide.Plugins/Emotions.cs:241-263 | The wrong-format exception is thrown exactly when normalisation fails. Otherwise the result is four bytes or a parse failure, and four bytes only come from eight characters. |
| Emotions.HexDigitRoundTrip | Oxide.Plugins/Emotions.cs:258-262 | A written hex digit reads back as its value. |
| Emotions.ByteRoundTrip | Oxide.Plugins/Emotions.cs:258-262 | A byte written as two digits parses back. |
| Emotions.TrimLeadingHash | Oxide.Plugins/Emotions.cs:248 | One leading `#` is all that trimming removes. |
| Emotions.HexDigitNotHash | Oxide.Plugins/Emotions.cs:248 | No written hex digit is `#`. |
| Emotions.ParseColorRoundTrip | Oxide.Plugins/Emotions.cs:258-263 | Four bytes written as digits parse back as those bytes. |
| Emotions.NormalizeDigits | Oxide.Plugins/Emotions.cs:248-250 | With one `#`, eight code units are kept, and six get `FF` alpha. |
| Emotions.HexDigitsUtf16 | Oxide.Plugins/Emotions.cs:249-252 | An ASCII string has one code unit per character. |
| Emotions.WrongLength | Oxide.Plugins/Emotions.cs:252-256 | After one `#`, a length other than 6 or 8 code units throws the wrong-format exception. |
| Emotions.SurrogateNotParsed | Oxide.Plugins/Emotions.cs:249-262 | Six code units that are not six characters get `FF`, pass the length check and fail to parse. |
| Emotions.DigitsThenEmoji | Oxide.Plugins/Emotions.cs:249-252 | Digits followed by an emoji are one character and two code units longer than the digits. |
| Emotions.SurrogateParseFails | Oxide.Plugins/Emotions.cs:249-262 | `#1234😀` is six code units: it gets `FF` and then `byte.Parse` fails. |
| Emotions.SurrogateWrongFormat | Oxide.Plugins/Emotions.cs:252-256 | `#1234567😀` is nine code units and throws for the length. |
| Emotions.ColorRoundTrip | Oxide.Plugins/Emotions.cs:241-263 | `#RRGGBBAA` converts back to the same four bytes. |
| Emotions.OpaqueRoundTrip | Oxide.Plugins/Emotions.cs:241-263 | `#RRGGBB` converts to those bytes with alpha 255. |
| Emotions.EmptyIsWhite | Oxide.Plugins/Emotions.cs:243-246 | A null or empty colour is opaque white. |
| Emotions.NormalizeWhite | Oxide.Plugins/Emotions.cs:243-250 | Null, empty and `#FFFFFFFF` normalise to eight `F`s. |
| Emotions.WhiteDigits | Oxide.Plugins/Emotions.cs:258-263 | Eight `F`s parse as four bytes of 255. |
| Emotions.HashesTrimmed | Oxide.Plugins/Emotions.cs:248 | `#` is trimmed from both ends however often it occurs. |
| Emotions.PaddedDigitParses | Oxide.Plugins/Emotions.cs:258-262 | A digit next to a space parses as that digit, so `" F0000FF"` is a colour. |
| Emotions.Toggled | Oxide.Plugins/Emotions.cs:156-168 | The command adds the player when absent and removes them when present. Everyone else, and distinctness, is unchanged. |
| Emotions.ToggleTwice | Oxide.Plugins/Emotions.cs:156-168 | Running the command twice restores the same players. |
| Emotions.WrittenColorsDrawable | Oxide.Plugins/Emotions.cs:181-223 | Close and emotion colours written as `#RRGGBBAA` always convert, so the menu can be drawn for any number of emotions. |
| Emotions.DefaultDrawable | Oxide.Plugins/Emotions.cs:34-38 | The default colours `#FFB6B3DE` and `#FF6666DE` convert, so the default menu is drawn. |
| Emotions.ShortColorNotDrawable | Oxide.Plugins/Emotions.cs:252-256 | `#12345` throws for its length, so with that close colour the menu is not drawn. |
| Emotions.Emotions.constructor | Oxide.Plugins/Emotions.cs:125 | No player has the menu open, and the configuration is the one given. |
| Emotions.Emotions.EmotionsCommand | Oxide.Plugins/Emotions.cs:156-168 | The drawing throws exactly when the player is not listed and a configured colour the menu uses is rejected by `HexToRustFormat`; then nothing changes. Otherwise the player list is toggled, and the menu is drawn for a player who was not listed and destroyed for one who was. |
| Emotions.Emotions.EmotionsCloseCommand | Oxide.Plugins/Emotions.cs:170-177 | A console call without a player changes nothing. Otherwise the player leaves the list and everyone else stays. |
| ServerChat.Protected | Oxide.Plugins/ServerChat.cs:74-78 | True exactly when the message contains one of the entries. |
| ServerChat.OnServerMessage | Oxide.Plugins/ServerChat.cs:69-82 | Null and no broadcast exactly when a protected text occurs. Otherwise true, with a broadcast whose message and title unwrap to the original texts in their configured styles, and the chat icon. |
| ServerChat.WrapRoundTrip | Oxide.Plugins/ServerChat.cs:71-72 | The text put between the style tags is taken out again unchanged. |
| ServerChat.WrapInjective | Oxide.Plugins/ServerChat.cs:71-72 | Different texts never look the same in one style. |
| ServerChat.EmptyEntryProtectsAll | Oxide.Plugins/ServerChat.cs:74-78 | An empty entry protects every message. |
| ServerChat.ProtectedAnywhere | Oxide.Plugins/ServerChat.cs:74-78 | A protected text anywhere in the message leaves it to the game. |
| ServerChat.MoreEntriesProtectMore | Oxide.Plugins/ServerChat.cs:74-78 | More entries protect at least the same messages. |
| EasyResearch.CanResearchItem | Oxide.Plugins/EasyResearch.cs:74-107 | Research is refused (true) exactly when the blueprint is known and that check is on, or the item is blocked; otherwise null with no notice. A chat notice starts with the prefix. A popup is sent only when configured and loaded. Every refusal is told unless the popup plugin is missing. |
| EasyResearch.UnlockedBeforeBlocked | Oxide.Plugins/EasyResearch.cs:76-90 | The known-blueprint check takes precedence over the blocked list. |
| EasyResearch.NoticeNamesReason | Oxide.Plugins/EasyResearch.cs:74-107 | The notice is the text for the refusal's reason. In chat mode it comes after the prefix. In popup mode it is the popup's text, or no notice when Popup Notifications is not loaded. |
| EasyResearch.DefaultRefusesKnown | Oxide.Plugins/EasyResearch.cs:35-62 | With the default configuration, a known blueprint is refused with the default prefix and message. |
| Lists.RemoveFirst | Oxide.Plugins/DeathChat.cs:87 | `List.Remove`: a missing element changes nothing. One occurrence goes. |
| Lists.RemoveFirstDistinct | Oxide.Plugins/Emotions.cs:166 | Removing from a list without repetitions keeps it so, and removes exactly that element. |
| Text.ReplaceAll | Oxide.Plugins/DiscordStatus.cs:157-164 | `String.Replace` leaves a string that does not contain the pattern unchanged. |
| Text.ReplacePrefix | Oxide.Plugins/DiscordStatus.cs:164 | A string that starts with the pattern, with no other occurrence of its first character, becomes the replacement followed by the rest. |
| Text.ReplaceMiddle | Oxide.Plugins/DiscordStatus.cs:164 | One occurrence of the pattern anywhere, with no other occurrence of its first character, is replaced and the text before and after it kept. |
| Text.ReplaceAfter | Oxide.Plugins/DiscordStatus.cs:157-164 | A prefix without the pattern's first character is kept, and replacement goes on in the rest. |
| Text.ReplaceSkip | Oxide.Plugins/DiscordStatus.cs:157-164 | A first character that does not start the pattern is kept. |
| Text.Utf16Length | Oxide.Plugins/DiscordAuth.cs:248 | `String.Length` lies between the number of characters and twice it, and equals it exactly when every character is in the Basic Multilingual Plane. |
| Text.Utf16Append | Oxide.Plugins/Emotions.cs:249-250 | The code units of two strings joined add up. |
| Text.SurrogatePairLength | Oxide.Plugins/DiscordAuth.cs:248 | `"ABCD😀"` is five characters but six UTF-16 code units. |
| Text.NatToStringRoundTrip | Oxide.Plugins/DiscordStatus.cs:160 | The decimal text of a count reads back as the count. |

## Left out

- **I/O and clients.** Discord gateway traffic, the game client, JSON configuration and data files, and localisation lookups are left out. Discord operations are logs, other plugins' answers are inputs, and localised text is a function from message key to text.
- **Timer scheduling.** The timer delays themselves are left out. Equal-delay timers are a FIFO queue that an event method pops. The periodic `UpdateStatus` and `Reload` timers, and the one-shot code and cooldown timers, are calls the environment makes.
- **Concurrency.** There is none: every hook runs to completion before the next.
- **Floating point.** The F2 formatting of Emotions colours, the `double` amounts of Starter Money and the rounding of their `Convert.ToInt32` for Server Rewards are left out. Amounts are real numbers, and only the range check that makes `Convert.ToInt32` throw is kept. A call records the permission whose amount it pays.
- StarterMoney.StarterMoney.OnUserConnected: whether `ulong.Parse` accepts the player id is an input, not a function of the id.
- **Startup warnings.** The `Loaded` warnings about missing or outdated companion plugins in Chat Notice and Starter Money, and Emotions' unload when Image Library is missing, only log or unload.
- **Client lifecycle.** Discord client creation and closing in `OnServerInitialized`, `Loaded` and `Unload` (Discord Auth, Discord Role Sync, Discord Status) is environment, as is `DiscordSocket_Initalized`.
- **Registration.** Discord Auth registers its permission and group in `Init`, and the Emotions commands and Image Library images are registered at startup; these are not modelled.
- **UI.** Emotions' `UI_DrawInterface` and `LoadImage` layout, and the embeds and direct-message texts of Discord Auth, are left out. The model records which menu or reply is shown. Of the drawing it keeps only the colour conversions: a colour that `HexToRustFormat` rejects throws, and no menu is drawn.
- **Rust-only placeholders.** The placeholders of `Format` inside `#if RUST` are left out; they are further `Replace` calls of the same kind.
- **Chat icon and user id.** Server Chat's chat icon and Death Chat's sender user id are passed through as numbers; the game gives them meaning.
- **PrivateMessagesGUI.cs** is not part of this model. It only draws the private-message UI.
- **Null lists.** A null `NoModify` list (Server Chat) or `Blocked` list (Easy Research) throws in the source. The model's lists are never null.
- DiscordStatus.DiscordStatus.GetStatusIndex: random mode sees a finite sequence of draws. When every draw equals the current index, the model returns `Retrying` instead of looping forever. `FewStatusesRandomStall` shows that with one or two statuses this happens for every possible draw once status 0 is shown.
- DiscordAuth.ToLower: the model lowers only `A`-`Z`. .NET's `String.ToLower` lowers every capital letter (`Ä` to `ä`, `Σ` to `σ`), and it uses the current culture. The code builder only ever holds `A`-`Z`, so for generated codes only the culture can make a difference: under a culture such as tr-TR, `I` would become a dotless `ı`.
- Emotions.ParseByte: the .NET detail that `byte.Parse` also accepts trailing NUL characters is not modelled.
- DiscordRoleSync.DiscordRoleSync.SyncGroup: the two identical loops of `OnUserGroupAdded` and `OnUserGroupRemoved` are one method with the `removeRole` flag.
