/**
 * Server Chat: server messages (give notices, restart warnings, ...) are
 * re-broadcast with a configured title, colours, sizes and chat icon,
 * unless they contain one of the configured "do not modify" texts, in
 * which case the game shows them as they are.
 */
module ServerChat {
  import opened Wrappers
  import opened Text

  /** The configuration values the hook reads. */
  datatype Config = Config(
    chatIcon: nat,             // "Chat Icon (SteamID64)"
    title: string,             // "Title"
    titleColor: string,        // "Title Color"
    titleSize: int,            // "Title Size"
    messageColor: string,      // "Message Color"
    messageSize: int,          // "Message Size"
    noModify: seq<string>)     // "Messages to not modify"

  /** The configuration a fresh install writes. */
  const DefaultConfig := Config(0, "Server", "white", 15, "white", 15, ["gave", "restarting"])

  /** One `Server.Broadcast(message, title, userId)`. */
  datatype Broadcast = Broadcast(message: string, title: string, userId: nat)

  /** What the hook does: the value it returns (`None` for null) and the broadcast it makes, if any. */
  datatype Outcome = Outcome(reply: Option<bool>, broadcast: Option<Broadcast>)

  /** The rich-text opening tags for a colour and a size. */
  function OpenTags(color: string, size: int): string {
    "<color=" + color + "><size=" + IntToString(size) + ">"
  }

  /** The closing tags matching `OpenTags`. */
  const CloseTags: string := "</size></color>"

  /** A text in the given colour and size. */
  function Wrap(color: string, size: int, text: string): string {
    OpenTags(color, size) + text + CloseTags
  }

  /** The text inside a string in the given colour and size, or `None` for a string not in that style. */
  function Unwrap(color: string, size: int, s: string): Option<string> {
    var open := OpenTags(color, size);
    if |s| >= |open| + |CloseTags| && s[..|open|] == open && s[|s| - |CloseTags|..] == CloseTags
    then Some(s[|open|..|s| - |CloseTags|])
    else None
  }

  /** The `foreach` over `NoModify`: whether the message contains any of the entries. */
  function Protected(message: string, noModify: seq<string>): (r: bool)
    ensures r <==> exists i :: 0 <= i < |noModify| && Contains(message, noModify[i])
  {
    if noModify == [] then false
    else Contains(message, noModify[0]) || Protected(message, noModify[1..])
  }

  /**
   * `OnServerMessage`: a message containing a protected text is left to
   * the game (null, no broadcast); every other message is broadcast in
   * the configured message style, under the configured title, with the
   * chat icon, and the hook answers `true`.
   */
  function OnServerMessage(config: Config, message: string): (r: Outcome)
    ensures r.reply == Some(true) <==> r.broadcast.Some?
    ensures r.reply.None? <==> r.broadcast.None?
    ensures r.broadcast.None? <==> exists i :: 0 <= i < |config.noModify| && Contains(message, config.noModify[i])
    ensures r.broadcast.Some? ==>
              Unwrap(config.messageColor, config.messageSize, r.broadcast.value.message) == Some(message)
              && Unwrap(config.titleColor, config.titleSize, r.broadcast.value.title) == Some(config.title)
              && r.broadcast.value.userId == config.chatIcon
  {
    var title := Wrap(config.titleColor, config.titleSize, config.title);
    var msg := Wrap(config.messageColor, config.messageSize, message);
    if Protected(message, config.noModify) then Outcome(None, None)
    else
      WrapRoundTrip(config.titleColor, config.titleSize, config.title);
      WrapRoundTrip(config.messageColor, config.messageSize, message);
      Outcome(Some(true), Some(Broadcast(msg, title, config.chatIcon)))
  }

  // ------------------------------------------------------------ properties

  /** The text put in the tags is the text taken out again. */
  lemma WrapRoundTrip(color: string, size: int, text: string)
    ensures Unwrap(color, size, Wrap(color, size, text)) == Some(text)
  {
    var open := OpenTags(color, size);
    var s := Wrap(color, size, text);
    assert s == open + text + CloseTags;
    assert s[..|open|] == open;
    assert s[|s| - |CloseTags|..] == CloseTags;
    assert s[|open|..|s| - |CloseTags|] == text;
  }

  /** Wrapping is determined by the text: two different texts never look the same in the same style. */
  lemma WrapInjective(color: string, size: int, a: string, b: string)
    requires Wrap(color, size, a) == Wrap(color, size, b)
    ensures a == b
  {
    WrapRoundTrip(color, size, a);
    WrapRoundTrip(color, size, b);
  }

  /** An empty entry protects every message, since every string contains the empty string. */
  lemma EmptyEntryProtectsAll(config: Config, message: string)
    requires "" in config.noModify
    ensures OnServerMessage(config, message) == Outcome(None, None)
  {
    var i :| 0 <= i < |config.noModify| && config.noModify[i] == "";
    assert OccursAt(message, config.noModify[i], 0);
  }

  /** A protected text anywhere in the message, between any other texts, keeps it unmodified. */
  lemma ProtectedAnywhere(config: Config, before: string, text: string, after: string)
    requires text in config.noModify
    ensures OnServerMessage(config, before + text + after) == Outcome(None, None)
  {
    var m := before + text + after;
    var i :| 0 <= i < |config.noModify| && config.noModify[i] == text;
    assert m[|before|..|before| + |text|] == text;
    assert OccursAt(m, config.noModify[i], |before|);
  }

  /** Adding entries to the list can only protect more messages. */
  lemma MoreEntriesProtectMore(config: Config, extra: seq<string>, message: string)
    requires OnServerMessage(config, message).reply.None?
    ensures OnServerMessage(config.(noModify := config.noModify + extra), message).reply.None?
  {
    var i :| 0 <= i < |config.noModify| && Contains(message, config.noModify[i]);
    assert (config.noModify + extra)[i] == config.noModify[i];
  }
}
