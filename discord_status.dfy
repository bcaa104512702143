/**
 * Discord Status: every few seconds the bot's presence shows the next
 * configured status line, with placeholders filled in from the server.
 * The model keeps the rotation index, the status-type mapping and the
 * placeholder substitution; the random source of random mode is an input
 * (the sequence of values it delivers), and the presence updates sent to
 * Discord are a log.
 */
module DiscordStatus {
  import opened Wrappers
  import opened Text

  /** The presence kinds of the Discord extension (`ActivityType`). */
  datatype ActivityType = Game | Streaming | Listening | Watching

  /** `default(ActivityType)`: the enum's zero value, activity type 0 of the Discord API. */
  const DefaultActivity: ActivityType := Game

  /** The type names the configuration accepts, `StatusTypes`. */
  const StatusTypes: seq<string> := ["Game", "Stream", "Listen", "Watch"]

  /**
   * `GetStatusType`: the presence kind for the configured type name, and
   * whether the unknown-type error is logged.
   */
  function GetStatusType(statusType: string): (r: (ActivityType, bool))
    ensures r.1 <==> statusType !in StatusTypes
    ensures !r.1 ==> TypeName(r.0) == statusType
    ensures r.1 ==> r.0 == DefaultActivity
  {
    var logged := statusType !in StatusTypes;
    if statusType == "Game" then (Game, logged)
    else if statusType == "Stream" then (Streaming, logged)
    else if statusType == "Listen" then (Listening, logged)
    else if statusType == "Watch" then (Watching, logged)
    else (DefaultActivity, logged)
  }

  /** The configuration name of each presence kind. */
  function TypeName(t: ActivityType): string {
    match t
    case Game => "Game"
    case Streaming => "Stream"
    case Listening => "Listen"
    case Watching => "Watch"
  }

  /**
   * The four names map to the four kinds without an error, one to one; any
   * other name logs the error and falls back to the default kind.
   */
  lemma StatusTypeMapping(t: ActivityType, name: string)
    ensures GetStatusType(TypeName(t)) == (t, false)
    ensures name in StatusTypes <==> name == TypeName(GetStatusType(name).0)
    ensures name !in StatusTypes ==> GetStatusType(name) == (DefaultActivity, true)
  {
    assert StatusTypes == [TypeName(Game), TypeName(Streaming), TypeName(Listening), TypeName(Watching)];
  }

  /** The server values the placeholders stand for. */
  datatype ServerInfo = ServerInfo(
    guildName: string,          // {guild.name}
    memberCount: int,           // {members.total}
    channelCount: nat,          // {channels.total}
    hostname: string,           // {server.hostname}
    maxPlayers: int,            // {server.maxplayers}
    online: nat,                // {players.online}
    authCount: Option<int>)     // {players.authenticated}: API_GetAuthCount, None when Discord Auth is not loaded

  /** What `{players.authenticated}` becomes. */
  function AuthText(info: ServerInfo): string {
    if info.authCount.Some? then IntToString(info.authCount.value) else "{unknown}"
  }

  /**
   * `Format`: the chain of `Replace` calls, applied in this order, each to
   * the previous result. A status line without any `{` is shown exactly as
   * configured.
   */
  function Format(message: string, info: ServerInfo): (r: string)
    ensures '{' !in message ==> r == message
  {
    var m1 := ReplaceAll(message, "{guild.name}", info.guildName);
    var m2 := ReplaceAll(m1, "{members.total}", IntToString(info.memberCount));
    var m3 := ReplaceAll(m2, "{channels.total}", NatToString(info.channelCount));
    var m4 := ReplaceAll(m3, "{server.hostname}", info.hostname);
    var m5 := ReplaceAll(m4, "{server.maxplayers}", IntToString(info.maxPlayers));
    var m6 := ReplaceAll(m5, "{players.online}", NatToString(info.online));
    NoBraceUntouched(message, "{guild.name}", info.guildName);
    NoBraceUntouched(m1, "{members.total}", IntToString(info.memberCount));
    NoBraceUntouched(m2, "{channels.total}", NatToString(info.channelCount));
    NoBraceUntouched(m3, "{server.hostname}", info.hostname);
    NoBraceUntouched(m4, "{server.maxplayers}", IntToString(info.maxPlayers));
    NoBraceUntouched(m5, "{players.online}", NatToString(info.online));
    NoBraceUntouched(m6, "{players.authenticated}", AuthText(info));
    ReplaceAll(m6, "{players.authenticated}", AuthText(info))
  }

  /** A text without `{` is untouched by a pattern that starts with `{`. */
  lemma NoBraceUntouched(s: string, p: string, r: string)
    requires |p| > 0 && p[0] == '{'
    ensures '{' !in s ==> ReplaceAll(s, p, r) == s
  {
    if '{' !in s {
      MissingFirstChar(s, p);
    }
  }

  /** The linked-accounts placeholder. */
  const AuthOnly: string := "{players.authenticated}"

  /** Every `{` of `s` opens a `{players.authenticated}` placeholder. */
  predicate OnlyAuthBraces(s: string) {
    forall i :: 0 <= i < |s| && s[i] == '{' ==> OccursAt(s, AuthOnly, i)
  }

  /**
   * A placeholder that starts with `{` but differs from `AuthOnly` at
   * position `k` does not occur in a text whose every `{` opens `AuthOnly`,
   * so replacing it changes nothing.
   */
  lemma OtherPlaceholderAbsent(s: string, p: string, r: string, k: nat)
    requires OnlyAuthBraces(s)
    requires 0 < k < |p| && k < |AuthOnly| && p[0] == '{' && p[k] != AuthOnly[k]
    ensures ReplaceAll(s, p, r) == s
  {
    forall i | 0 <= i <= |s| - |p| ensures !OccursAt(s, p, i) {
      assert OccursAt(s, p, i) ==> s[i] == '{' && s[i + k] == p[k] by {
        if OccursAt(s, p, i) {
          assert s[i..i + |p|][0] == s[i] && s[i..i + |p|][k] == s[i + k];
        }
      }
      assert OccursAt(s, AuthOnly, i) ==> s[i + k] == AuthOnly[k] by {
        if OccursAt(s, AuthOnly, i) {
          assert s[i..i + |AuthOnly|][k] == s[i + k];
        }
      }
    }
  }

  /**
   * None of the first six placeholders occurs in a text whose every `{`
   * opens `{players.authenticated}`: the guild and server ones differ from
   * it right after the `{`, and `{players.online}` after `{players.`.
   */
  lemma OtherPlaceholdersAbsent(s: string, info: ServerInfo)
    requires OnlyAuthBraces(s)
    ensures ReplaceAll(s, "{guild.name}", info.guildName) == s
    ensures ReplaceAll(s, "{members.total}", IntToString(info.memberCount)) == s
    ensures ReplaceAll(s, "{channels.total}", NatToString(info.channelCount)) == s
    ensures ReplaceAll(s, "{server.hostname}", info.hostname) == s
    ensures ReplaceAll(s, "{server.maxplayers}", IntToString(info.maxPlayers)) == s
    ensures ReplaceAll(s, "{players.online}", NatToString(info.online)) == s
  {
    OtherPlaceholderAbsent(s, "{guild.name}", info.guildName, 1);
    OtherPlaceholderAbsent(s, "{members.total}", IntToString(info.memberCount), 1);
    OtherPlaceholderAbsent(s, "{channels.total}", NatToString(info.channelCount), 1);
    OtherPlaceholderAbsent(s, "{server.hostname}", info.hostname, 1);
    OtherPlaceholderAbsent(s, "{server.maxplayers}", IntToString(info.maxPlayers), 1);
    OtherPlaceholderAbsent(s, "{players.online}", NatToString(info.online), 9);
  }

  /**
   * A status line whose every `{` opens `{players.authenticated}` is
   * changed by that placeholder alone: each occurrence shows the number of
   * linked accounts, or `{unknown}` when Discord Auth is not loaded.
   */
  lemma FormatAuthOnly(message: string, info: ServerInfo)
    requires OnlyAuthBraces(message)
    ensures Format(message, info) == ReplaceAll(message, AuthOnly, AuthText(info))
  {
    OtherPlaceholdersAbsent(message, info);
  }

  /** Every character of `AuthOnly` after the first differs from `{`. */
  lemma AuthOnlyBraceAt()
    ensures forall i :: 1 <= i < |AuthOnly| ==> AuthOnly[i] != '{'
  {
  }

  /**
   * A status line that starts with `{players.authenticated}` and has no
   * other `{`, such as the default `{players.authenticated} Linked
   * Account(s)`, shows the number of linked accounts (or `{unknown}`)
   * followed by the rest of the line.
   */
  lemma AuthPlaceholder(rest: string, info: ServerInfo)
    requires '{' !in rest
    ensures Format(AuthOnly + rest, info) ==
              (if info.authCount.Some? then IntToString(info.authCount.value) else "{unknown}") + rest
  {
    var m := AuthOnly + rest;
    AuthOnlyBraceAt();
    assert m[..|AuthOnly|] == AuthOnly;
    assert forall i :: 0 <= i < |AuthOnly| ==> m[i] == AuthOnly[i];
    assert forall i :: |AuthOnly| <= i < |m| ==> m[i] == rest[i - |AuthOnly|];
    assert OnlyAuthBraces(m);
    FormatAuthOnly(m, info);
    ReplacePrefix(AuthOnly, rest, AuthText(info));
  }

  /**
   * The same holds wherever the placeholder stands: a status line with one
   * `{players.authenticated}` and no other `{` shows the text around it
   * with the number of linked accounts (or `{unknown}`) in its place.
   */
  lemma AuthPlaceholderInside(before: string, after: string, info: ServerInfo)
    requires '{' !in before && '{' !in after
    ensures Format(before + AuthOnly + after, info) ==
              before + (if info.authCount.Some? then IntToString(info.authCount.value) else "{unknown}") + after
  {
    var m := before + AuthOnly + after;
    var n := |before| + |AuthOnly|;
    AuthOnlyBraceAt();
    assert m[|before|..n] == AuthOnly;
    assert forall i :: 0 <= i < |before| ==> m[i] == before[i];
    assert forall i :: |before| <= i < n ==> m[i] == AuthOnly[i - |before|];
    assert forall i :: n <= i < |m| ==> m[i] == after[i - n];
    assert OnlyAuthBraces(m);
    FormatAuthOnly(m, info);
    ReplaceMiddle(before, AuthOnly, after, AuthText(info));
  }

  /** One presence update sent to Discord. */
  datatype Presence = Presence(name: string, kind: ActivityType)

  /** The error `GetStatusType` prints for a status type it does not know. */
  function UnknownTypeError(statusType: string): (r: string)
    ensures Contains(r, statusType)
  {
    ContainsMiddle("Unknown Status Type '", statusType, "'");
    "Unknown Status Type '" + statusType + "'"
  }

  /** How one `UpdateStatus` tick ends. */
  datatype UpdateOutcome =
    | NoStatus                 // the status list is empty
    | Shown(index: nat)        // the presence was updated with this status
    | Retrying                 // random mode: every value drawn equals the current index

  /** The sequential rotation: the next index after `index`. */
  function NextIndex(index: int, count: nat): nat
    requires count > 0 && index >= -1
  {
    (index + 1) % count
  }

  /**
   * The do-while of random mode: the first value drawn that differs from
   * the current index, or `None` when none of the draws does (the loop has
   * not exited yet).
   */
  function FirstOther(draws: seq<int>, current: int): (r: Option<int>)
    ensures r.Some? ==> r.value in draws && r.value != current
    ensures r.Some? ==> exists i :: 0 <= i < |draws| && draws[i] == r.value
                                    && forall j :: 0 <= j < i ==> draws[j] == current
    ensures r.None? <==> forall i :: 0 <= i < |draws| ==> draws[i] == current
  {
    if draws == [] then None
    else if draws[0] != current then Some(draws[0])
    else FirstOther(draws[1..], current)
  }

  /** The index shown by the `n`-th tick of sequential mode, starting from -1. */
  function ShownAt(count: nat, n: nat): int
    requires count > 0
  {
    if n == 0 then -1 else NextIndex(ShownAt(count, n - 1), count)
  }

  /**
   * Sequential mode starts at the first status and shows each status in
   * turn: tick `n` of the first round shows status `n - 1`.
   */
  lemma {:induction false} FirstRound(count: nat, n: nat)
    requires 0 < n <= count
    ensures ShownAt(count, n) == n - 1
  {
    if n > 1 {
      FirstRound(count, n - 1);
    }
    NextIndexStep(ShownAt(count, n - 1), count);
  }

  /** From a valid index the rotation steps to the next one, and from the last back to the first. */
  lemma NextIndexStep(index: int, count: nat)
    requires count > 0 && -1 <= index < count
    ensures NextIndex(index, count) == if index + 1 == count then 0 else index + 1
  {
  }

  /** After the last status the rotation starts again: it repeats every `count` ticks. */
  lemma {:induction false} RotationPeriod(count: nat, n: nat)
    requires count > 0 && n > 0
    ensures ShownAt(count, n + count) == ShownAt(count, n)
  {
    if n == 1 {
      FirstRound(count, count);
      NextIndexStep(count - 1, count);
      NextIndexStep(-1, count);
    } else {
      RotationPeriod(count, n - 1);
    }
  }

  /**
   * The values `Random.Range(0, count - 1)` can give: its upper bound is
   * exclusive, and a range with equal bounds gives its lower bound.
   */
  function DrawBound(count: nat): nat {
    if count > 1 then count - 1 else 1
  }

  /**
   * Random mode with one or two statuses never gets past its second tick.
   * `Random.Range(0, Count - 1)` then only gives 0 (the upper bound is
   * exclusive, and equal bounds give the lower one). The first tick shows
   * status 0, and from then on no draw differs from it, so the do-while
   * never exits.
   */
  lemma {:induction false} FewStatusesRandomStall(count: nat, draws: seq<int>)
    requires 0 < count <= 2
    requires forall i :: 0 <= i < |draws| ==> 0 <= draws[i] < DrawBound(count)
    ensures |draws| > 0 ==> FirstOther(draws, -1) == Some(0)
    ensures FirstOther(draws, 0).None?
  {
    if draws != [] {
      FewStatusesRandomStall(count, draws[1..]);
    }
  }

  class DiscordStatus {
    const statuses: seq<string>   // "Status"
    const randomize: bool         // "Randomize Status"
    const statusType: string      // "Status Type (Game/Stream/Listen/Watch)"
    /** The index shown last, -1 before the first tick. */
    var statusIndex: int
    /** The presence updates sent, in order. */
    var presences: seq<Presence>
    /** The messages of `PrintError`, in order. */
    var errors: seq<string>

    ghost predicate Valid()
      reads this
    {
      -1 <= statusIndex < |statuses|
    }

    constructor (statuses: seq<string>, randomize: bool, statusType: string)
      ensures Valid()
      ensures this.statuses == statuses && this.randomize == randomize && this.statusType == statusType
      ensures statusIndex == -1 && presences == [] && errors == []
    {
      this.statuses := statuses;
      this.randomize := randomize;
      this.statusType := statusType;
      statusIndex := -1;
      presences := [];
      errors := [];
    }

    /**
     * `GetStatusIndex`: the next index in sequential mode; in random mode
     * the first drawn value that differs from the index shown last.
     * `draws` are the values `Random.Range(0, Count - 1)` returns, one per
     * pass of the do-while; as that bound is exclusive, random mode never
     * picks the last of two or more statuses.
     */
    method GetStatusIndex(draws: seq<int>) returns (r: Option<nat>)
      requires Valid() && |statuses| > 0
      requires forall i :: 0 <= i < |draws| ==> 0 <= draws[i] < DrawBound(|statuses|)
      ensures r.Some? ==> r.value < |statuses|
      ensures randomize && |statuses| > 1 && r.Some? ==> r.value < |statuses| - 1
      ensures !randomize ==> r == Some(NextIndex(statusIndex, |statuses|))
      ensures randomize ==> (r.Some? <==> FirstOther(draws, statusIndex).Some?)
      ensures randomize && r.Some? ==> r.value == FirstOther(draws, statusIndex).value && r.value != statusIndex
    {
      if !randomize {
        return Some((statusIndex + 1) % |statuses|);
      }
      var i := 0;
      while i < |draws|
        invariant 0 <= i <= |draws|
        invariant FirstOther(draws, statusIndex) == FirstOther(draws[i..], statusIndex)
      {
        assert draws[i..][1..] == draws[i + 1..];
        if draws[i] != statusIndex {
          return Some(draws[i]);
        }
        i := i + 1;
      }
      return None;
    }

    /**
     * `UpdateStatus`: nothing when there are no statuses (the modulo is
     * never reached); otherwise the presence shows the formatted status at
     * the chosen index, and that index becomes `statusIndex`. Reading
     * the status type for it logs an error when the type is unknown.
     */
    method UpdateStatus(draws: seq<int>, info: ServerInfo) returns (o: UpdateOutcome)
      requires Valid()
      requires forall i :: 0 <= i < |draws| ==> 0 <= draws[i] < DrawBound(|statuses|)
      modifies this`statusIndex, this`presences, this`errors
      ensures Valid()
      ensures |statuses| == 0 ==> o == NoStatus && statusIndex == old(statusIndex) && presences == old(presences)
      ensures o.Retrying? ==> randomize && statusIndex == old(statusIndex) && presences == old(presences)
      ensures o.Shown? ==>
                && o.index < |statuses| && statusIndex == o.index
                && presences == old(presences) + [Presence(Format(statuses[o.index], info), GetStatusType(statusType).0)]
      ensures errors == old(errors) + if o.Shown? && statusType !in StatusTypes then [UnknownTypeError(statusType)] else []
      ensures |statuses| > 0 && !randomize ==> o == Shown(NextIndex(old(statusIndex), |statuses|))
      ensures |statuses| > 0 && randomize ==>
                (o.Shown? <==> FirstOther(draws, old(statusIndex)).Some?)
                && (o.Shown? ==> o.index == FirstOther(draws, old(statusIndex)).value && o.index != old(statusIndex))
    {
      if |statuses| == 0 {
        return NoStatus;
      }
      var index := GetStatusIndex(draws);
      if index.None? {
        return Retrying;
      }
      var (kind, unknown) := GetStatusType(statusType);
      presences := presences + [Presence(Format(statuses[index.value], info), kind)];
      if unknown {
        errors := errors + [UnknownTypeError(statusType)];
      }
      statusIndex := index.value;
      o := Shown(index.value);
    }
  }
}
