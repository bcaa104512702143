/**
 * Death Chat: a player who has just died gets a death prefix in front of
 * their chat messages for a configured time. Each death adds the player's
 * id to a list and sets a timer that removes one occurrence again, so a
 * player who dies several times stays marked until the last of those
 * timers fires. With Better Chat loaded the prefix is added as one more
 * chat title; without it the plugin broadcasts the message itself.
 *
 * The timers are a queue of pending removals that `DeathTimerElapsed`
 * pops (they all run for the same time, so they fire in the order they
 * were set), and the broadcasts are a log.
 */
module DeathChat {
  import opened Wrappers
  import opened Lists
  import opened Text

  /** The configuration values the hooks read. */
  datatype Config = Config(
    playerKills: bool,     // "Track Player Kills Only"
    time: int,             // "Time Until Prefix will show (seconds)"
    prefix: string,        // "Prefix"
    prefixColor: string,   // "Prefix Color"
    prefixSize: int)       // "Prefix Size"

  /** The configuration a fresh install writes. */
  const DefaultConfig := Config(true, 60, "[RIP]", "#EE3B3B", 14)

  /** The coloured, sized death prefix: the prefix text sits between the style tags. */
  function DeathTitle(config: Config): (r: string)
    ensures Contains(r, config.prefix)
  {
    var head := "<color=" + config.prefixColor + "><size=" + IntToString(config.prefixSize) + ">";
    ContainsMiddle(head, config.prefix, "</size></color>");
    head + config.prefix + "</size></color>"
  }

  /**
   * The title of a broadcast message: the death prefix, then the player's
   * name in the name colour. It starts with the death title and shows both
   * the prefix text and the name.
   */
  function ChatTitle(config: Config, displayName: string): (r: string)
    ensures |r| >= |DeathTitle(config)| && r[..|DeathTitle(config)|] == DeathTitle(config)
    ensures Contains(r, config.prefix)
    ensures Contains(r, displayName)
  {
    var t := DeathTitle(config);
    var rest := " <color=#5af>" + displayName + "</color>";
    ContainsExtended(t, rest, config.prefix);
    ContainsMiddle(t + " <color=#5af>", displayName, "</color>");
    assert t + rest == t + " <color=#5af>" + displayName + "</color>";
    assert (t + rest)[..|t|] == t;
    t + rest
  }

  /** The player who sent a chat message. */
  datatype Speaker = Speaker(id: string, userId: nat, displayName: string)

  /** One `Server.Broadcast(message, title, userId)`. */
  datatype Broadcast = Broadcast(message: string, title: string, userId: nat)

  /**
   * While every mark has its own pending timer, a player is marked exactly
   * when a timer for them is pending, and as often.
   */
  lemma MarkedWhilePending(players: seq<string>, timers: seq<string>, id: string)
    requires multiset(players) == multiset(timers)
    ensures id in players <==> id in timers
    ensures multiset(players)[id] == multiset(timers)[id]
  {
    assert id in players <==> id in multiset(players);
    assert id in timers <==> id in multiset(timers);
  }

  /**
   * When the oldest timer fires for `id`, the player stays marked exactly
   * when another of their deaths is still pending.
   */
  lemma {:induction false} TimerUnmarks(players: seq<string>, timers: seq<string>)
    requires multiset(players) == multiset(timers) && |timers| > 0
    ensures var id := timers[0];
            id in RemoveFirst(players, id) <==> id in timers[1..]
  {
    var id := timers[0];
    StillPresentAfterRemove(players, id);
    assert timers == [id] + timers[1..];
    assert multiset(timers)[id] == 1 + multiset(timers[1..])[id];
    assert id in timers[1..] <==> multiset(timers[1..])[id] > 0;
  }

  /** The `Titles` list of the Better Chat message data. */
  class ChatData {
    var titles: seq<string>

    constructor (titles: seq<string>)
      ensures this.titles == titles
    {
      this.titles := titles;
    }
  }

  class DeathChat {
    const config: Config
    /** `_players`: one entry per death whose timer has not fired yet. */
    var players: seq<string>
    /** The removal timers not yet fired, oldest first. */
    var timers: seq<string>
    /** Whether `OnPlayerChat` is still subscribed. */
    var chatSubscribed: bool
    /** The messages the plugin broadcast. */
    var broadcasts: seq<Broadcast>

    /** Every mark has exactly one pending timer that will take it away. */
    ghost predicate Valid()
      reads this
    {
      multiset(players) == multiset(timers)
    }

    constructor (config: Config)
      ensures Valid()
      ensures this.config == config && players == [] && timers == [] && chatSubscribed && broadcasts == []
    {
      this.config := config;
      players := [];
      timers := [];
      chatSubscribed := true;
      broadcasts := [];
    }

    /** `OnServerInitialized`: with Better Chat loaded the plugin stops handling chat itself. */
    method OnServerInitialized(betterChatLoaded: bool)
      modifies this`chatSubscribed
      ensures chatSubscribed == (old(chatSubscribed) && !betterChatLoaded)
    {
      if betterChatLoaded {
        chatSubscribed := false;
      }
    }

    /**
     * `OnPlayerDie`: the player is marked, and a removal timer set, unless
     * the "Track Player Kills Only" option is OFF and the entity the death
     * blow hit is not a player. The option reads the other way round from
     * its name: when it is on every death is tracked. `hitEntityIsPlayer`
     * is `info.HitEntity is BasePlayer`, `None` for a null `HitInfo`; the
     * test dereferences it only when the option is off, and then a null
     * `HitInfo` throws before anything changes.
     */
    method OnPlayerDie(id: string, hitEntityIsPlayer: Option<bool>) returns (threw: bool)
      requires Valid()
      modifies this`players, this`timers
      ensures Valid()
      ensures threw <==> !config.playerKills && hitEntityIsPlayer.None?
      ensures !config.playerKills && hitEntityIsPlayer != Some(true) ==>
                players == old(players) && timers == old(timers)
      ensures config.playerKills || hitEntityIsPlayer == Some(true) ==>
                players == old(players) + [id] && timers == old(timers) + [id]
    {
      if !config.playerKills {
        if hitEntityIsPlayer.None? {
          return true;
        }
        if !hitEntityIsPlayer.value {
          return false;
        }
      }
      players := players + [id];
      timers := timers + [id];
      threw := false;
    }

    /** The oldest removal timer fires: one occurrence of its player leaves the list. */
    method DeathTimerElapsed()
      requires Valid() && |timers| > 0
      modifies this`players, this`timers
      ensures Valid()
      ensures timers == old(timers[1..])
      ensures players == RemoveFirst(old(players), old(timers[0]))
      ensures old(timers[0]) in players <==> old(timers[0]) in timers
    {
      TimerUnmarks(players, timers);
      var id := timers[0];
      assert timers == [id] + timers[1..];
      players := RemoveFirst(players, id);
      timers := timers[1..];
    }

    /**
     * `OnPlayerChat`: `None` (null, the game handles the message) for an
     * unmarked player; for a marked one the plugin broadcasts the message
     * under the death title and answers `true`. Once unsubscribed the hook
     * is not called, which is also `None`.
     */
    method OnPlayerChat(speaker: Speaker, message: string) returns (r: Option<bool>)
      modifies this`broadcasts
      ensures !chatSubscribed || speaker.id !in players ==> r == None && broadcasts == old(broadcasts)
      ensures chatSubscribed && speaker.id in players ==>
                r == Some(true)
                && broadcasts == old(broadcasts) + [Broadcast(message, ChatTitle(config, speaker.displayName), speaker.userId)]
    {
      if !chatSubscribed {
        return None;
      }
      if speaker.id !in players {
        return None;
      }
      var title := ChatTitle(config, speaker.displayName);
      broadcasts := broadcasts + [Broadcast(message, title, speaker.userId)];
      return Some(true);
    }

    /**
     * `OnBetterChat`: `None` (null) for an unmarked player; for a marked
     * one the death title is appended to the message's titles and the
     * same data is handed back.
     */
    method OnBetterChat(id: string, data: ChatData) returns (r: Option<ChatData>)
      modifies data
      ensures id !in players ==> r == None && data.titles == old(data.titles)
      ensures id in players ==> r == Some(data) && data.titles == old(data.titles) + [DeathTitle(config)]
    {
      if id !in players {
        return None;
      }
      data.titles := data.titles + [DeathTitle(config)];
      return Some(data);
    }
  }
}
