/**
 * Chat Notice: plays a notification sound for the receiver of a private
 * message, of a clan message or of a global chat message. Each of the
 * three channels keeps a cooldown list of user ids; while a player is on
 * a channel's list (and the cooldown is enabled) that channel plays them
 * no sound. An entry leaves its list when the timer set with it fires.
 *
 * The game world is not part of the model: a receiver is a value saying
 * whether they hold the permission and whether they have a game object;
 * the sounds played are a log of user ids, and each cooldown timer is an
 * entry of a pending-timer queue that the `CooldownElapsed` event pops.
 */
module ChatNotice {
  import opened Wrappers
  import opened Lists

  /** The configuration values the hooks read. */
  datatype Config = Config(
    requirePermission: bool,  // "Require Permission"
    soundPrefab: string,      // "Sound Prefab"
    useCooldown: bool,        // "Use Cooldown"
    cooldown: int,            // "Cooldown (seconds)"
    pm: bool,                 // "Use PM"
    clanChat: bool,           // "Use Clan Chat"
    globalChat: bool)         // "Use Global Chat"

  /** The configuration a fresh install writes. */
  const DefaultConfig := Config(false, "assets/bundled/prefabs/fx/invite_notice.prefab", true, 60, true, true, false)

  /** The permission `Require Permission` asks for. */
  const Perm := "chatnotice.use"

  /** `ChatType`. */
  datatype Channel = PM | Clan | Global

  /**
   * A player a notice may go to: their user id, whether they hold `Perm`,
   * and whether they have a game object (`IPlayer.Object` is not null).
   */
  datatype Target = Target(userId: nat, permitted: bool, inGame: bool)

  /** The `Cooldown` object: one list of user ids per channel. */
  datatype Cooldowns = Cooldowns(pm: seq<nat>, clan: seq<nat>, global: seq<nat>)
  {
    /** The list of one channel. */
    function Of(ch: Channel): seq<nat> {
      match ch
      case PM => pm
      case Clan => clan
      case Global => global
    }

    /** The same lists with the one of `ch` replaced by `l`. */
    function With(ch: Channel, l: seq<nat>): (r: Cooldowns)
      ensures r.Of(ch) == l
      ensures forall other :: other != ch ==> r.Of(other) == Of(other)
    {
      match ch
      case PM => this.(pm := l)
      case Clan => this.(clan := l)
      case Global => this.(global := l)
    }
  }

  /** A timer set by `RunEffect`: when it fires it removes `userId` from the list of `channel`. */
  datatype Pending = Pending(channel: Channel, userId: nat)

  /**
   * Everything the plugin changes: the cooldown lists, the timers not yet
   * fired (in the order they were set; they all run for the same time, so
   * they fire in that order) and the sounds played, by receiver.
   */
  datatype Notices = Notices(cooldown: Cooldowns, timers: seq<Pending>, sounds: seq<nat>)

  /** The state at load: empty lists, no timer, no sound. */
  const Initial := Notices(Cooldowns([], [], []), [], [])

  /** A receiver passes the permission test: it holds `Perm` or no permission is required. */
  predicate Permitted(config: Config, t: Target) {
    !config.requirePermission || t.permitted
  }

  /**
   * `RunEffect`, as a function of the state before it. The cooldown gate:
   * a receiver without a game object, or already on the channel's list
   * while the cooldown is on, gets no sound and changes nothing; any other
   * receiver is appended to that channel's list, gets a timer for it and
   * hears the sound.
   */
  function Step(config: Config, s: Notices, t: Target, ch: Channel): (r: Notices)
    ensures r == s <==> !t.inGame || (config.useCooldown && t.userId in s.cooldown.Of(ch))
    ensures r != s ==>
              && r.cooldown.Of(ch) == s.cooldown.Of(ch) + [t.userId]
              && r.timers == s.timers + [Pending(ch, t.userId)]
              && r.sounds == s.sounds + [t.userId]
    ensures forall other :: other != ch ==> r.cooldown.Of(other) == s.cooldown.Of(other)
  {
    if !t.inGame then s
    else if config.useCooldown && t.userId in s.cooldown.Of(ch) then s
    else Notices(s.cooldown.With(ch, s.cooldown.Of(ch) + [t.userId]),
                 s.timers + [Pending(ch, t.userId)],
                 s.sounds + [t.userId])
  }

  /** `RunEffect` for each receiver in turn. */
  function Fold(config: Config, s: Notices, ts: seq<Target>, ch: Channel): Notices
    decreases |ts|
  {
    if ts == [] then s else Step(config, Fold(config, s, ts[..|ts| - 1], ch), ts[|ts| - 1], ch)
  }

  /** The clan members that get `RunEffect`: found (not null) and permitted, in list order. */
  function ClanRecipients(config: Config, members: seq<Option<Target>>): (r: seq<Target>)
    ensures forall i :: 0 <= i < |r| ==> Permitted(config, r[i])
    decreases |members|
  {
    if members == [] then []
    else
      var last := members[|members| - 1];
      ClanRecipients(config, members[..|members| - 1])
        + (if last.Some? && Permitted(config, last.value) then [last.value] else [])
  }

  /** The connected players that get `RunEffect` for a global message: permitted, and not the sender. */
  function GlobalRecipients(config: Config, sender: nat, connected: seq<Target>): (r: seq<Target>)
    ensures forall i :: 0 <= i < |r| ==> Permitted(config, r[i]) && r[i].userId != sender
    decreases |connected|
  {
    if connected == [] then []
    else
      var last := connected[|connected| - 1];
      GlobalRecipients(config, sender, connected[..|connected| - 1])
        + (if Permitted(config, last) && last.userId != sender then [last] else [])
  }

  /** The user ids of the timers pending for one channel. */
  function Scheduled(timers: seq<Pending>, ch: Channel): multiset<nat> {
    if timers == [] then multiset{}
    else (if timers[0].channel == ch then multiset{timers[0].userId} else multiset{}) + Scheduled(timers[1..], ch)
  }

  /**
   * What the plugin keeps true: every list entry has exactly one pending
   * timer that will remove it, and with the cooldown on no list holds a
   * player twice.
   */
  ghost predicate Consistent(config: Config, s: Notices) {
    && (forall ch :: multiset(s.cooldown.Of(ch)) == Scheduled(s.timers, ch))
    && (config.useCooldown ==> forall ch :: Distinct(s.cooldown.Of(ch)))
  }

  // ------------------------------------------------------------ properties

  /** A timer set after the others adds its user to its channel's pending ids only. */
  lemma {:induction false} ScheduledAppend(timers: seq<Pending>, p: Pending, ch: Channel)
    ensures Scheduled(timers + [p], ch) ==
              Scheduled(timers, ch) + (if p.channel == ch then multiset{p.userId} else multiset{})
  {
    if timers != [] {
      assert (timers + [p])[1..] == timers[1..] + [p];
      ScheduledAppend(timers[1..], p, ch);
    }
  }

  /**
   * The channels are independent: a notice on one channel leaves the other
   * lists alone, and whether it plays depends on its own list only.
   */
  lemma ChannelsIndependent(config: Config, s: Notices, s': Notices, t: Target, ch: Channel, other: Channel)
    requires other != ch
    ensures Step(config, s, t, ch).cooldown.Of(other) == s.cooldown.Of(other)
    ensures s'.cooldown.Of(ch) == s.cooldown.Of(ch) ==>
              (Step(config, s', t, ch).sounds == s'.sounds <==> Step(config, s, t, ch).sounds == s.sounds)
  {
    var r, r' := Step(config, s, t, ch), Step(config, s', t, ch);
    if r.sounds == s.sounds && s'.cooldown.Of(ch) == s.cooldown.Of(ch) {
      assert |r.sounds| == |s.sounds|;
    }
    if r'.sounds == s'.sounds && s'.cooldown.Of(ch) == s.cooldown.Of(ch) {
      assert |r'.sounds| == |s'.sounds|;
    }
  }

  /**
   * With the cooldown off every notice to a player with a game object plays,
   * and the player is added to the list once more each time.
   */
  lemma NoCooldownRepeats(config: Config, s: Notices, t: Target, ch: Channel)
    requires !config.useCooldown && t.inGame
    ensures Step(config, s, t, ch).sounds == s.sounds + [t.userId]
    ensures multiset(Step(config, s, t, ch).cooldown.Of(ch))[t.userId] == multiset(s.cooldown.Of(ch))[t.userId] + 1
  {
  }

  /** One `RunEffect` keeps the state consistent. */
  lemma StepConsistent(config: Config, s: Notices, t: Target, ch: Channel)
    requires Consistent(config, s)
    ensures Consistent(config, Step(config, s, t, ch))
  {
    var r := Step(config, s, t, ch);
    if r != s {
      forall c ensures multiset(r.cooldown.Of(c)) == Scheduled(r.timers, c) {
        ScheduledAppend(s.timers, Pending(ch, t.userId), c);
      }
      if config.useCooldown {
        forall c ensures Distinct(r.cooldown.Of(c)) {
          if c == ch {
            var l := s.cooldown.Of(ch);
            assert t.userId !in l;
            assert r.cooldown.Of(c) == l + [t.userId];
            forall i, j | 0 <= i < j < |l + [t.userId]| ensures (l + [t.userId])[i] != (l + [t.userId])[j] {
              if j == |l| {
                assert (l + [t.userId])[i] == l[i];
              }
            }
          }
        }
      }
    }
  }

  /** A run of `RunEffect`s keeps the state consistent. */
  lemma {:induction false} FoldConsistent(config: Config, s: Notices, ts: seq<Target>, ch: Channel)
    requires Consistent(config, s)
    ensures Consistent(config, Fold(config, s, ts, ch))
    decreases |ts|
  {
    if ts != [] {
      FoldConsistent(config, s, ts[..|ts| - 1], ch);
      StepConsistent(config, Fold(config, s, ts[..|ts| - 1], ch), ts[|ts| - 1], ch);
    }
  }

  /**
   * A player none of the receivers is never touched by a run of notices:
   * they hear no sound and their place on every list stays as it was.
   */
  lemma {:induction false} FoldLeavesOthers(config: Config, s: Notices, ts: seq<Target>, ch: Channel, x: nat)
    requires forall i :: 0 <= i < |ts| ==> ts[i].userId != x
    ensures multiset(Fold(config, s, ts, ch).sounds)[x] == multiset(s.sounds)[x]
    ensures forall c :: multiset(Fold(config, s, ts, ch).cooldown.Of(c))[x] == multiset(s.cooldown.Of(c))[x]
    decreases |ts|
  {
    if ts != [] {
      var init := ts[..|ts| - 1];
      FoldLeavesOthers(config, s, init, ch, x);
      var m := Fold(config, s, init, ch);
      var t := ts[|ts| - 1];
      var r := Step(config, m, t, ch);
      if r != m {
        assert multiset(r.sounds) == multiset(m.sounds) + multiset{t.userId};
        forall c ensures multiset(r.cooldown.Of(c))[x] == multiset(m.cooldown.Of(c))[x] {
          if c == ch {
            assert multiset(r.cooldown.Of(c)) == multiset(m.cooldown.Of(c)) + multiset{t.userId};
          }
        }
      }
    }
  }

  /** A global chat message never plays the notice for its sender. */
  lemma GlobalSkipsSender(config: Config, s: Notices, sender: nat, connected: seq<Target>)
    ensures var r := Fold(config, s, GlobalRecipients(config, sender, connected), Global);
            multiset(r.sounds)[sender] == multiset(s.sounds)[sender]
  {
    FoldLeavesOthers(config, s, GlobalRecipients(config, sender, connected), Global, sender);
  }

  /** A receiver that fails the permission test never enters the clan or global recipients. */
  lemma UnpermittedSkipped(config: Config, members: seq<Option<Target>>, sender: nat, connected: seq<Target>, t: Target)
    requires !Permitted(config, t)
    ensures t !in ClanRecipients(config, members)
    ensures t !in GlobalRecipients(config, sender, connected)
  {
  }

  /** One element more at the end of the receivers is one `RunEffect` more. */
  lemma FoldSnoc(config: Config, s: Notices, ts: seq<Target>, t: Target, ch: Channel)
    ensures Fold(config, s, ts + [t], ch) == Step(config, Fold(config, s, ts, ch), t, ch)
  {
    assert (ts + [t])[..|ts|] == ts;
  }

  /** One clan member more: one `RunEffect` more when that member is found and permitted. */
  lemma ClanStep(config: Config, s: Notices, ms: seq<Option<Target>>, i: nat)
    requires i < |ms|
    ensures Fold(config, s, ClanRecipients(config, ms[..i + 1]), Clan) ==
              if ms[i].Some? && Permitted(config, ms[i].value)
              then Step(config, Fold(config, s, ClanRecipients(config, ms[..i]), Clan), ms[i].value, Clan)
              else Fold(config, s, ClanRecipients(config, ms[..i]), Clan)
  {
    var done := ClanRecipients(config, ms[..i]);
    assert ms[..i + 1][..i] == ms[..i];
    if ms[i].Some? && Permitted(config, ms[i].value) {
      assert ClanRecipients(config, ms[..i + 1]) == done + [ms[i].value];
      FoldSnoc(config, s, done, ms[i].value, Clan);
    } else {
      assert ClanRecipients(config, ms[..i + 1]) == done + [];
      assert done + [] == done;
    }
  }

  /** One connected player more: one `RunEffect` more when that player is permitted and not the sender. */
  lemma GlobalStep(config: Config, s: Notices, sender: nat, connected: seq<Target>, i: nat)
    requires i < |connected|
    ensures Fold(config, s, GlobalRecipients(config, sender, connected[..i + 1]), Global) ==
              if Permitted(config, connected[i]) && connected[i].userId != sender
              then Step(config, Fold(config, s, GlobalRecipients(config, sender, connected[..i]), Global), connected[i], Global)
              else Fold(config, s, GlobalRecipients(config, sender, connected[..i]), Global)
  {
    var done := GlobalRecipients(config, sender, connected[..i]);
    assert connected[..i + 1][..i] == connected[..i];
    if Permitted(config, connected[i]) && connected[i].userId != sender {
      assert GlobalRecipients(config, sender, connected[..i + 1]) == done + [connected[i]];
      FoldSnoc(config, s, done, connected[i], Global);
    } else {
      assert GlobalRecipients(config, sender, connected[..i + 1]) == done + [];
      assert done + [] == done;
    }
  }

  // ------------------------------------------------------------- the plugin

  class ChatNotice {
    const config: Config
    /** `cooldown`. */
    var cooldown: Cooldowns
    /** The cooldown timers not yet fired, oldest first. */
    var timers: seq<Pending>
    /** `Effect.server.Run(config.SoundPrefab, …)`: the user ids at whose position the sound played. */
    var sounds: seq<nat>

    /** The plugin's state as a value. */
    function Snapshot(): Notices
      reads this
    {
      Notices(cooldown, timers, sounds)
    }

    ghost predicate Valid()
      reads this
    {
      Consistent(config, Snapshot())
    }

    constructor (config: Config)
      ensures Valid()
      ensures this.config == config && Snapshot() == Initial
    {
      this.config := config;
      cooldown := Cooldowns([], [], []);
      timers := [];
      sounds := [];
    }

    /** `RunEffect`. */
    method RunEffect(target: Target, ch: Channel)
      requires Valid()
      modifies this`cooldown, this`timers, this`sounds
      ensures Valid()
      ensures Snapshot() == Step(config, old(Snapshot()), target, ch)
    {
      StepConsistent(config, Snapshot(), target, ch);
      if !target.inGame {
        return;
      }
      if config.useCooldown && target.userId in cooldown.Of(ch) {
        return;
      }
      cooldown := cooldown.With(ch, cooldown.Of(ch) + [target.userId]);
      timers := timers + [Pending(ch, target.userId)];
      sounds := sounds + [target.userId];
    }

    /** `OnPMProcessed`: the receiver of a private message, if PM notices are on and they pass the permission test. */
    method OnPMProcessed(target: Target)
      requires Valid()
      modifies this`cooldown, this`timers, this`sounds
      ensures Valid()
      ensures Snapshot() ==
                if config.pm && Permitted(config, target) then Step(config, old(Snapshot()), target, PM)
                else old(Snapshot())
    {
      if !config.pm {
        return;
      }
      if config.requirePermission && !target.permitted {
        return;
      }
      RunEffect(target, PM);
    }

    /** The body of the `ForEach` over the clan members. */
    method ClanMember(member: Option<Target>)
      requires Valid()
      modifies this`cooldown, this`timers, this`sounds
      ensures Valid()
      ensures Snapshot() ==
                if member.Some? && Permitted(config, member.value) then Step(config, old(Snapshot()), member.value, Clan)
                else old(Snapshot())
    {
      if member.None? {
        return;
      }
      if config.requirePermission && !member.value.permitted {
        return;
      }
      RunEffect(member.value, Clan);
    }

    /** The body of the `ForEach` over the connected players. */
    method GlobalTarget(sender: nat, target: Target)
      requires Valid()
      modifies this`cooldown, this`timers, this`sounds
      ensures Valid()
      ensures Snapshot() ==
                if Permitted(config, target) && target.userId != sender then Step(config, old(Snapshot()), target, Global)
                else old(Snapshot())
    {
      if config.requirePermission && !target.permitted {
        return;
      }
      if target.userId == sender {
        return;
      }
      RunEffect(target, Global);
    }

    /**
     * `OnClanChat`: every member of the sender's clan, in list order.
     * `members` is `None` when the sender has no clan or the clan has no
     * member list; a member that is not found is `None`.
     */
    method OnClanChat(members: Option<seq<Option<Target>>>)
      requires Valid()
      modifies this`cooldown, this`timers, this`sounds
      ensures Valid()
      ensures Snapshot() ==
                if config.clanChat && members.Some? then
                  Fold(config, old(Snapshot()), ClanRecipients(config, members.value), Clan)
                else old(Snapshot())
    {
      if !config.clanChat {
        return;
      }
      if members.None? {
        return;
      }
      ForEachClanMember(members.value);
    }

    /** The `ForEach` over the clan members, in list order. */
    method ForEachClanMember(ms: seq<Option<Target>>)
      requires Valid()
      modifies this`cooldown, this`timers, this`sounds
      ensures Valid()
      ensures Snapshot() == Fold(config, old(Snapshot()), ClanRecipients(config, ms), Clan)
    {
      ghost var start := Snapshot();
      var i := 0;
      while i < |ms|
        invariant 0 <= i <= |ms|
        invariant Valid()
        invariant Snapshot() == Fold(config, start, ClanRecipients(config, ms[..i]), Clan)
      {
        ClanStep(config, start, ms, i);
        ClanMember(ms[i]);
        i := i + 1;
      }
      assert ms[..|ms|] == ms;
    }

    /**
     * `OnPlayerChat`: every connected player but the sender, in the order
     * of the connected list. `sender` is `None` when the message has no
     * sending player.
     */
    method OnPlayerChat(sender: Option<nat>, connected: seq<Target>)
      requires Valid()
      modifies this`cooldown, this`timers, this`sounds
      ensures Valid()
      ensures Snapshot() ==
                if config.globalChat && sender.Some? then
                  Fold(config, old(Snapshot()), GlobalRecipients(config, sender.value, connected), Global)
                else old(Snapshot())
    {
      if !config.globalChat {
        return;
      }
      if sender.None? {
        return;
      }
      ForEachConnected(sender.value, connected);
    }

    /** The `ForEach` over the connected players, in the order of the connected list. */
    method ForEachConnected(id: nat, connected: seq<Target>)
      requires Valid()
      modifies this`cooldown, this`timers, this`sounds
      ensures Valid()
      ensures Snapshot() == Fold(config, old(Snapshot()), GlobalRecipients(config, id, connected), Global)
    {
      ghost var start := Snapshot();
      var i := 0;
      while i < |connected|
        invariant 0 <= i <= |connected|
        invariant Valid()
        invariant Snapshot() == Fold(config, start, GlobalRecipients(config, id, connected[..i]), Global)
      {
        GlobalStep(config, start, id, connected, i);
        GlobalTarget(id, connected[i]);
        i := i + 1;
      }
      assert connected[..|connected|] == connected;
    }

    /** The oldest cooldown timer fires: one occurrence of its user leaves its channel's list. */
    method CooldownElapsed()
      requires Valid() && |timers| > 0
      modifies this`cooldown, this`timers
      ensures Valid()
      ensures timers == old(timers[1..]) && sounds == old(sounds)
      ensures var p := old(timers[0]);
              && cooldown.Of(p.channel) == RemoveFirst(old(cooldown.Of(p.channel)), p.userId)
              && forall c :: c != p.channel ==> cooldown.Of(c) == old(cooldown.Of(c))
    {
      var p := timers[0];
      ghost var before := Snapshot();
      assert timers == [p] + timers[1..];
      cooldown := cooldown.With(p.channel, RemoveFirst(cooldown.Of(p.channel), p.userId));
      timers := timers[1..];
      forall c ensures multiset(cooldown.Of(c)) == Scheduled(timers, c) {
        assert Scheduled(before.timers, c) ==
                 (if p.channel == c then multiset{p.userId} else multiset{}) + Scheduled(timers, c);
      }
      if config.useCooldown {
        forall c ensures Distinct(cooldown.Of(c)) {
          if c == p.channel {
            RemoveFirstDistinct(before.cooldown.Of(c), p.userId);
          }
        }
      }
    }
  }
}
