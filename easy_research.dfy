/**
 * Easy Research: the research table refuses an item whose blueprint the
 * player already knows (when so configured) or whose short name is on
 * the blocked list, and tells the player why, by popup notification or
 * in chat. Any other research goes ahead as the game decides.
 *
 * The messages come from the localisation table; the model takes that
 * lookup as a function from message key to text.
 */
module EasyResearch {
  import opened Wrappers

  /** The configuration values the hook reads. */
  datatype Config = Config(
    blocked: seq<string>,      // "Blocked Items"
    alreadyUnlocked: bool,     // "Block Research if player already unlocked the blueprint"
    chatPrefix: string,        // "Chat Prefix"
    popup: bool)               // "Use Popup Notifications"

  /** The configuration a fresh install writes. */
  const DefaultConfig := Config(["shortname"], true, "<color=green>Easy Research</color>: ", false)

  /** The two messages the plugin registers. */
  datatype Key = AlreadyUnlocked | BlockedItem

  /** The English texts of the messages. */
  function DefaultMessages(key: Key): string {
    match key
    case AlreadyUnlocked => "You already unlocked this blueprint"
    case BlockedItem => "Researching this item is blocked on this server"
  }

  /** How the player is told: a popup notification or a chat message. */
  datatype Notice = Popup(text: string) | Chat(text: string)

  /** What the hook does: the value it returns (`None` for null) and the notice it sends, if any. */
  datatype Decision = Decision(reply: Option<bool>, notice: Option<Notice>)

  /** Why research is refused, if it is: the already-unlocked check comes first. */
  function Refusal(config: Config, unlocked: bool, shortname: string): Option<Key> {
    if config.alreadyUnlocked && unlocked then Some(AlreadyUnlocked)
    else if shortname in config.blocked then Some(BlockedItem)
    else None
  }

  /**
   * How a refusal is told: as a popup when popups are configured (and
   * nothing at all when Popup Notifications is not loaded, the call being
   * made through `?.`), otherwise as a chat message after the prefix.
   */
  function Tell(config: Config, popupLoaded: bool, text: string): Option<Notice> {
    if config.popup then (if popupLoaded then Some(Popup(text)) else None)
    else Some(Chat(config.chatPrefix + text))
  }

  /**
   * `CanResearchItem`: `true` (research refused) with the reason's
   * message when the blueprint is known and that check is on, or when the
   * item is blocked; otherwise null and no message.
   */
  function CanResearchItem(config: Config, lang: Key -> string, unlocked: bool, shortname: string,
                           popupLoaded: bool): (r: Decision)
    ensures r.reply == Some(true) <==> (config.alreadyUnlocked && unlocked) || shortname in config.blocked
    ensures r.reply.None? <==> !((config.alreadyUnlocked && unlocked) || shortname in config.blocked)
    ensures r.reply.None? ==> r.notice.None?
    ensures r.notice.Some? && r.notice.value.Chat? ==>
              !config.popup && |r.notice.value.text| >= |config.chatPrefix|
              && r.notice.value.text[..|config.chatPrefix|] == config.chatPrefix
    ensures r.notice.Some? && r.notice.value.Popup? ==> config.popup && popupLoaded
    ensures r.reply.Some? && (!config.popup || popupLoaded) ==> r.notice.Some?
  {
    match Refusal(config, unlocked, shortname)
    case None => Decision(None, None)
    case Some(key) =>
      var text := lang(key);
      assert (config.chatPrefix + text)[..|config.chatPrefix|] == config.chatPrefix;
      Decision(Some(true), Tell(config, popupLoaded, text))
  }

  // ------------------------------------------------------------ properties

  /**
   * The already-unlocked check takes precedence: a known blueprint of a
   * blocked item is refused with the already-unlocked message.
   */
  lemma UnlockedBeforeBlocked(config: Config, lang: Key -> string, shortname: string, popupLoaded: bool)
    requires config.alreadyUnlocked && shortname in config.blocked
    ensures CanResearchItem(config, lang, true, shortname, popupLoaded).notice
              == Tell(config, popupLoaded, lang(AlreadyUnlocked))
  {
  }

  /**
   * The message is exactly the one for the reason: in chat after the
   * prefix, or on its own as a popup, which is lost when Popup
   * Notifications is not loaded.
   */
  lemma NoticeNamesReason(config: Config, lang: Key -> string, unlocked: bool, shortname: string, popupLoaded: bool)
    ensures var r := CanResearchItem(config, lang, unlocked, shortname, popupLoaded);
            match Refusal(config, unlocked, shortname)
            case None => r.notice.None?
            case Some(key) =>
              && (!config.popup ==> r.notice == Some(Chat(config.chatPrefix + lang(key))))
              && (config.popup && popupLoaded ==> r.notice == Some(Popup(lang(key))))
              && (config.popup && !popupLoaded ==> r.notice.None?)
  {
  }

  /** With the default configuration a known blueprint is always refused, in chat with the default prefix. */
  lemma DefaultRefusesKnown(shortname: string)
    ensures CanResearchItem(DefaultConfig, DefaultMessages, true, shortname, false)
              == Decision(Some(true), Some(Chat(DefaultConfig.chatPrefix + DefaultMessages(AlreadyUnlocked))))
  {
  }
}
