/**
 * Emotions: a chat command opens a radial menu of gestures and, given
 * again, closes it; the menu's close button closes it too. The plugin
 * remembers which players have the menu open in the list `Players`.
 *
 * The menu's colours are configured as hex strings `#RRGGBBAA` (or
 * `#RRGGBB`) and turned into four colour bytes before they are written
 * into the UI. The model covers that conversion up to the bytes; the
 * division into floating-point channels and their formatting are not
 * part of it. Drawing and destroying the menu are entries of a UI log.
 */
module Emotions {
  import opened Wrappers
  import opened Lists
  import Text

  // ------------------------------------------------------- hex colours

  /** The four bytes of a `Color32`. */
  datatype Color32 = Color32(r: nat, g: nat, b: nat, a: nat)

  /** The outcome of `HexToRustFormat` up to the bytes. */
  datatype Converted =
    | Converted(color: Color32)   // all four bytes parsed
    | WrongFormat(hex: string)    // the normalised string is not 8 characters: `throw new Exception(hex)`
    | ParseFailed                 // `byte.Parse` rejected one of the four pairs

  /** The value of a hexadecimal digit, in either case. */
  function HexValue(c: char): (r: Option<nat>)
    ensures r.Some? ==> r.value < 16
  {
    if '0' <= c <= '9' then Some(c as nat - '0' as nat)
    else if 'a' <= c <= 'f' then Some(c as nat - 'a' as nat + 10)
    else if 'A' <= c <= 'F' then Some(c as nat - 'A' as nat + 10)
    else None
  }

  /** The white space `NumberStyles.AllowLeadingWhite`/`AllowTrailingWhite` skip: U+0009 to U+000D and U+0020. */
  predicate IsWhite(c: char) {
    c == ' ' || '\t' <= c <= '\r'
  }

  /**
   * `byte.Parse(t, NumberStyles.HexNumber)` of a two-character string:
   * two hex digits, or one digit with white space before or after it.
   */
  function ParseByte(t: string): (r: Option<nat>)
    requires |t| == 2
    ensures r.Some? ==> r.value < 256
  {
    match (HexValue(t[0]), HexValue(t[1]))
    case (Some(h), Some(l)) => Some(16 * h + l)
    case (None, Some(l)) => if IsWhite(t[0]) then Some(l) else None
    case (Some(h), None) => if IsWhite(t[1]) then Some(h) else None
    case (None, None) => None
  }

  /** `TrimStart('#')`: every leading `#` goes. */
  function TrimStart(s: string): (r: string)
    ensures |r| <= |s| && r == s[|s| - |r|..]
    ensures forall i :: 0 <= i < |s| - |r| ==> s[i] == '#'
    ensures r == [] || r[0] != '#'
  {
    if s != [] && s[0] == '#' then TrimStart(s[1..]) else s
  }

  /** `TrimEnd('#')`: every trailing `#` goes. */
  function TrimEnd(s: string): (r: string)
    ensures |r| <= |s| && r == s[..|r|]
    ensures forall i :: |r| <= i < |s| ==> s[i] == '#'
    ensures r == [] || r[|r| - 1] != '#'
  {
    if s != [] && s[|s| - 1] == '#' then TrimEnd(s[..|s| - 1]) else s
  }

  /** `string.Trim('#')`. */
  function Trim(s: string): string {
    TrimEnd(TrimStart(s))
  }

  /** The colour used for a null or empty string. */
  const White: string := "#FFFFFFFF"

  /**
   * The string `HexToRustFormat` parses, or `None` when it throws for the
   * length: null or empty is white, `#` is trimmed from both ends, and six
   * digits get an opaque alpha. `Length` counts UTF-16 code units.
   */
  function Normalize(hex: Option<string>): (r: Option<string>)
    ensures r.Some? ==> Text.Utf16Length(r.value) == 8
    ensures hex.Some? && hex.value != "" ==>
              (r.None? <==> Text.Utf16Length(Trim(hex.value)) != 6 && Text.Utf16Length(Trim(hex.value)) != 8)
  {
    var h := if hex.None? || hex.value == "" then White else hex.value;
    var str := Trim(h);
    Text.Utf16Append(str, "FF");
    var str := if Text.Utf16Length(str) == 6 then str + "FF" else str;
    if Text.Utf16Length(str) != 8 then None else Some(str)
  }

  /** The four bytes of eight normalised digits: the pairs at offsets 0, 2, 4 and 6. */
  function ParseColor(str: string): (r: Converted)
    requires |str| == 8
    ensures r.Converted? || r.ParseFailed?
    ensures r.Converted? ==> r.color.r < 256 && r.color.g < 256 && r.color.b < 256 && r.color.a < 256
  {
    match (ParseByte(str[0..2]), ParseByte(str[2..4]), ParseByte(str[4..6]), ParseByte(str[6..8]))
    case (Some(r), Some(g), Some(b), Some(a)) => Converted(Color32(r, g, b, a))
    case _ => ParseFailed
  }

  /**
   * `HexToRustFormat` up to `new Color32(r, g, b, a)`. Eight code units
   * that are fewer than eight characters hold a surrogate pair, which
   * `byte.Parse` rejects whichever pair of code units it falls into.
   */
  function HexToColor(hex: Option<string>): (r: Converted)
    ensures r.WrongFormat? <==> Normalize(hex).None?
    ensures r.Converted? ==> r.color.r < 256 && r.color.g < 256 && r.color.b < 256 && r.color.a < 256
    ensures r.Converted? ==> |Normalize(hex).value| == 8
  {
    match Normalize(hex)
    case None => WrongFormat(if hex.None? || hex.value == "" then White else hex.value)
    case Some(str) => if |str| != 8 then ParseFailed else ParseColor(str)
  }

  /** The upper-case hex digit of a value below 16. */
  function HexDigit(d: nat): char
    requires d < 16
  {
    if d < 10 then ('0' as nat + d) as char else ('A' as nat + d - 10) as char
  }

  /** A byte as two upper-case hex digits. */
  function ByteToHex(v: nat): string
    requires v < 256
  {
    [HexDigit(v / 16), HexDigit(v % 16)]
  }

  /** The `#RRGGBBAA` spelling of a colour. */
  function ColorToHex(c: Color32): string
    requires c.r < 256 && c.g < 256 && c.b < 256 && c.a < 256
  {
    "#" + ByteToHex(c.r) + ByteToHex(c.g) + ByteToHex(c.b) + ByteToHex(c.a)
  }

  // ------------------------------------------------- colour properties

  /** A digit written by `HexDigit` reads back as its value. */
  lemma HexDigitRoundTrip(d: nat)
    requires d < 16
    ensures HexValue(HexDigit(d)) == Some(d)
  {
  }

  /** Two digits written by `ByteToHex` parse back as the byte. */
  lemma ByteRoundTrip(v: nat)
    requires v < 256
    ensures ParseByte(ByteToHex(v)) == Some(v)
  {
    HexDigitRoundTrip(v / 16);
    HexDigitRoundTrip(v % 16);
  }

  /** Trimming a string with exactly one leading `#` and no trailing one removes only that `#`. */
  lemma TrimLeadingHash(digits: string)
    requires digits != [] && digits[0] != '#' && digits[|digits| - 1] != '#'
    ensures Trim("#" + digits) == digits
  {
    assert ("#" + digits)[1..] == digits;
  }

  /** No digit `HexDigit` writes is a `#`. */
  lemma HexDigitNotHash(d: nat)
    requires d < 16
    ensures HexDigit(d) != '#'
  {
  }

  /** Four bytes written as digits parse back as those bytes. */
  lemma ParseColorRoundTrip(c: Color32)
    requires c.r < 256 && c.g < 256 && c.b < 256 && c.a < 256
    ensures ParseColor(ByteToHex(c.r) + ByteToHex(c.g) + ByteToHex(c.b) + ByteToHex(c.a)) == Converted(c)
  {
    var r, g, b, a := ByteToHex(c.r), ByteToHex(c.g), ByteToHex(c.b), ByteToHex(c.a);
    var str := r + g + b + a;
    assert str[0..2] == r && str[2..4] == g && str[4..6] == b && str[6..8] == a;
    ByteRoundTrip(c.r);
    ByteRoundTrip(c.g);
    ByteRoundTrip(c.b);
    ByteRoundTrip(c.a);
  }

  /** With one leading `#`, eight code units are parsed as they are and six get an opaque alpha. */
  lemma NormalizeDigits(digits: string)
    requires Text.Utf16Length(digits) in {6, 8} && digits[0] != '#' && digits[|digits| - 1] != '#'
    ensures Normalize(Some("#" + digits)) == Some(if Text.Utf16Length(digits) == 6 then digits + "FF" else digits)
  {
    TrimLeadingHash(digits);
  }

  /** Hex digits are one code unit each. */
  lemma HexDigitsUtf16(digits: string)
    requires forall i :: 0 <= i < |digits| ==> digits[i] as int < 128
    ensures Text.Utf16Length(digits) == |digits|
  {
  }

  /** After one leading `#`, a length other than six or eight code units throws. */
  lemma WrongLength(digits: string)
    requires digits != [] && digits[0] != '#' && digits[|digits| - 1] != '#'
    requires Text.Utf16Length(digits) !in {6, 8}
    ensures HexToColor(Some("#" + digits)) == WrongFormat("#" + digits)
  {
    TrimLeadingHash(digits);
  }

  /** Six code units that are not six characters get `FF` appended and then fail to parse. */
  lemma SurrogateNotParsed(digits: string)
    requires digits != [] && digits[0] != '#' && digits[|digits| - 1] != '#'
    requires Text.Utf16Length(digits) == 6 && |digits| != 6
    ensures HexToColor(Some("#" + digits)) == ParseFailed
  {
    NormalizeDigits(digits);
  }

  /** Digits followed by one character outside the Basic Multilingual Plane: one code unit more than characters. */
  lemma DigitsThenEmoji(digits: string)
    requires forall i :: 0 <= i < |digits| ==> '0' <= digits[i] <= '9'
    ensures Text.Utf16Length(digits + "\U{1F600}") == |digits| + 2
    ensures |digits + "\U{1F600}"| == |digits| + 1
  {
    HexDigitsUtf16(digits);
    Text.Utf16Append(digits, "\U{1F600}");
  }

  /**
   * `#1234` and an emoji is six code units: it gets `FF` appended, passes
   * the length check and then fails to parse.
   */
  lemma SurrogateParseFails()
    ensures HexToColor(Some("#1234\U{1F600}")) == ParseFailed
  {
    var d := "1234" + "\U{1F600}";
    assert "#1234\U{1F600}" == "#" + d;
    DigitsThenEmoji("1234");
    SurrogateNotParsed(d);
  }

  /** `#1234567` and an emoji is nine code units, so it throws for the length. */
  lemma SurrogateWrongFormat()
    ensures HexToColor(Some("#1234567\U{1F600}")) == WrongFormat("#1234567\U{1F600}")
  {
    var d := "1234567" + "\U{1F600}";
    assert "#1234567\U{1F600}" == "#" + d;
    DigitsThenEmoji("1234567");
    WrongLength(d);
  }

  /** A colour written as `#RRGGBBAA` converts back to the same four bytes. */
  lemma ColorRoundTrip(c: Color32)
    requires c.r < 256 && c.g < 256 && c.b < 256 && c.a < 256
    ensures HexToColor(Some(ColorToHex(c))) == Converted(c)
  {
    var digits := ByteToHex(c.r) + ByteToHex(c.g) + ByteToHex(c.b) + ByteToHex(c.a);
    assert ColorToHex(c) == "#" + digits;
    HexDigitNotHash(c.r / 16);
    HexDigitNotHash(c.a % 16);
    NormalizeDigits(digits);
    ParseColorRoundTrip(c);
  }

  /** A colour written as `#RRGGBB` converts to those bytes with alpha 255. */
  lemma OpaqueRoundTrip(c: Color32)
    requires c.r < 256 && c.g < 256 && c.b < 256
    ensures HexToColor(Some("#" + ByteToHex(c.r) + ByteToHex(c.g) + ByteToHex(c.b))) == Converted(c.(a := 255))
  {
    var digits := ByteToHex(c.r) + ByteToHex(c.g) + ByteToHex(c.b);
    assert "#" + ByteToHex(c.r) + ByteToHex(c.g) + ByteToHex(c.b) == "#" + digits;
    HexDigitNotHash(c.r / 16);
    HexDigitNotHash(c.b % 16);
    NormalizeDigits(digits);
    assert ByteToHex(255) == "FF";
    assert digits + "FF" == ByteToHex(c.r) + ByteToHex(c.g) + ByteToHex(c.b) + ByteToHex(255);
    ParseColorRoundTrip(c.(a := 255));
  }

  /** A null or empty colour is opaque white. */
  lemma EmptyIsWhite()
    ensures HexToColor(None) == Converted(Color32(255, 255, 255, 255))
    ensures HexToColor(Some("")) == Converted(Color32(255, 255, 255, 255))
  {
    NormalizeWhite();
    WhiteDigits();
  }

  /** Null, empty and `White` all normalise to eight `F` digits. */
  lemma NormalizeWhite()
    ensures Normalize(None) == Normalize(Some("")) == Normalize(Some(White)) == Some("FFFFFFFF")
  {
    WhiteNormalized();
    NullAsWhite();
  }

  /** `White` normalises to eight `F` digits. */
  lemma WhiteNormalized()
    ensures Normalize(Some(White)) == Some("FFFFFFFF")
  {
    var digits := "FFFFFFFF";
    assert "#" + digits == White;
    HexDigitsUtf16(digits);
    NormalizeDigits(digits);
  }

  /** Null and empty are normalised as `White` is. */
  lemma NullAsWhite()
    ensures Normalize(None) == Normalize(Some(White))
    ensures Normalize(Some("")) == Normalize(Some(White))
  {
    BlankAsWhite(None);
    BlankAsWhite(Some(""));
  }

  /** A null or empty string is normalised as `White` is. */
  lemma BlankAsWhite(hex: Option<string>)
    requires hex.None? || hex.value == ""
    ensures Normalize(hex) == Normalize(Some(White))
  {
  }

  /** Eight `F` digits are opaque white. */
  lemma WhiteDigits()
    ensures ParseColor("FFFFFFFF") == Converted(Color32(255, 255, 255, 255))
  {
    var digits := "FFFFFFFF";
    assert digits[0..2] == digits[2..4] == digits[4..6] == digits[6..8] == "FF";
  }

  /**
   * `#` is trimmed at both ends, as often as it occurs there: extra
   * hashes around a colour change nothing.
   */
  lemma HashesTrimmed(digits: string)
    requires digits != [] && digits[0] != '#' && digits[|digits| - 1] != '#'
    ensures Trim("##" + digits + "#") == digits
  {
    assert ("##" + digits + "#")[1..] == "#" + digits + "#";
    assert ("#" + digits + "#")[1..] == digits + "#";
    assert (digits + "#")[..|digits|] == digits;
  }

  /** `byte.Parse` with `HexNumber` lets a pair of one digit and one space through, as that digit. */
  lemma PaddedDigitParses()
    ensures ParseByte(" F") == Some(15) && ParseByte("F ") == Some(15)
    ensures ParseColor(" F0000FF") == Converted(Color32(15, 0, 0, 255))
  {
    var str := " F0000FF";
    assert str[0..2] == " F" && str[2..4] == "00" && str[4..6] == "00" && str[6..8] == "FF";
  }

  // ------------------------------------------------------------ the menu

  /** The configuration entries the menu reads: its two colours and the number of emotions. */
  datatype Config = Config(closeButtonColor: Option<string>, emotionButtonColor: Option<string>, emotionCount: nat)

  /** The configuration written when there is none. */
  const DefaultConfig: Config := Config(Some("#FFB6B3DE"), Some("#FF6666DE"), 7)

  /**
   * `UI_DrawInterface` reaches `CuiHelper.AddUi`: `HexToRustFormat`
   * accepts the close button's colour, and the emotion button's colour
   * too when there is an emotion to draw it for.
   */
  predicate MenuDrawable(config: Config) {
    HexToColor(config.closeButtonColor).Converted?
    && (config.emotionCount == 0 || HexToColor(config.emotionButtonColor).Converted?)
  }

  /** Colours written as `#RRGGBBAA` always let the menu be drawn. */
  lemma WrittenColorsDrawable(close: Color32, emotion: Color32, count: nat)
    requires close.r < 256 && close.g < 256 && close.b < 256 && close.a < 256
    requires emotion.r < 256 && emotion.g < 256 && emotion.b < 256 && emotion.a < 256
    ensures MenuDrawable(Config(Some(ColorToHex(close)), Some(ColorToHex(emotion)), count))
  {
    ColorRoundTrip(close);
    ColorRoundTrip(emotion);
  }

  /** The default colours convert, so the default menu is drawn. */
  lemma DefaultDrawable()
    ensures MenuDrawable(DefaultConfig)
  {
    var close, emotion := Color32(255, 182, 179, 222), Color32(255, 102, 102, 222);
    assert ColorToHex(close) == "#FFB6B3DE";
    assert ColorToHex(emotion) == "#FF6666DE";
    WrittenColorsDrawable(close, emotion, 7);
  }

  /** A five-digit close colour throws for the length, so the menu is not drawn. */
  lemma ShortColorNotDrawable()
    ensures HexToColor(Some("#12345")) == WrongFormat("#12345")
    ensures !MenuDrawable(DefaultConfig.(closeButtonColor := Some("#12345")))
  {
    var d := "12345";
    assert "#12345" == "#" + d;
    HexDigitsUtf16(d);
    WrongLength(d);
  }


  /** One entry of the UI log. */
  datatype UiOp = Draw(userId: nat) | Destroy(userId: nat)

  /** The `Players` list after the emotions command of `userId`. */
  function Toggled(players: seq<nat>, userId: nat): (r: seq<nat>)
    requires Distinct(players)
    ensures Distinct(r)
    ensures userId in r <==> userId !in players
    ensures forall x :: x != userId ==> (x in r <==> x in players)
  {
    if userId in players then
      RemoveFirstDistinct(players, userId);
      RemoveFirst(players, userId)
    else
      assert forall i :: 0 <= i < |players| ==> (players + [userId])[i] == players[i];
      players + [userId]
  }

  /** Giving the command twice leaves the same players with the menu open. */
  lemma ToggleTwice(players: seq<nat>, userId: nat)
    requires Distinct(players)
    ensures multiset(Toggled(Toggled(players, userId), userId)) == multiset(players)
  {
    if userId !in players {
      RemoveAppended(players, userId);
    } else {
      RemoveFirstDistinct(players, userId);
      StillPresentAfterRemove(players, userId);
      assert userId in multiset(players);
    }
  }

  class Emotions {
    /** The configuration the plugin reads. */
    const config: Config
    /** `Players`: the players who have the menu open. */
    var players: seq<nat>
    /** The menus drawn and destroyed, in order. */
    var ui: seq<UiOp>

    /** Nobody is listed twice. */
    ghost predicate Valid()
      reads this
    {
      Distinct(players)
    }

    constructor (config: Config)
      ensures this.config == config
      ensures Valid() && players == [] && ui == []
    {
      this.config := config;
      players := [];
      ui := [];
    }

    /**
     * `EmotionsCommand`: draws and records the menu for a player without it,
     * destroys and forgets it otherwise. Drawing converts the configured
     * colours first; when one of them is rejected the exception leaves
     * the UI and the list as they were.
     */
    method EmotionsCommand(userId: nat) returns (threw: bool)
      requires Valid()
      modifies this
      ensures Valid()
      ensures threw <==> userId !in old(players) && !MenuDrawable(config)
      ensures threw ==> players == old(players) && ui == old(ui)
      ensures !threw ==> players == Toggled(old(players), userId)
      ensures !threw ==> ui == old(ui) + [if userId in old(players) then Destroy(userId) else Draw(userId)]
    {
      ghost var toggled := Toggled(players, userId);
      if userId !in players {
        if !MenuDrawable(config) {
          return true;
        }
        ui := ui + [Draw(userId)];
        players := players + [userId];
      } else {
        ui := ui + [Destroy(userId)];
        players := RemoveFirst(players, userId);
      }
      threw := false;
    }

    /**
     * `EmotionsCloseCommand`: the closing player is forgotten (the button
     * itself closes the menu); a console call without a player does nothing.
     */
    method EmotionsCloseCommand(player: Option<nat>)
      requires Valid()
      modifies this`players
      ensures Valid()
      ensures player.None? ==> players == old(players)
      ensures player.Some? ==> players == RemoveFirst(old(players), player.value)
      ensures player.Some? ==> player.value !in players && forall x :: x != player.value ==> (x in players <==> x in old(players))
    {
      if player.None? {
        return;
      }
      RemoveFirstDistinct(players, player.value);
      players := RemoveFirst(players, player.value);
    }
  }
}
