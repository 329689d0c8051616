/** Room-name rules (internal/service/room.go): the length and character-class
    check, the trim of surrounding spaces and the internal room key.
    A string is a sequence of code points, so `|name|` is the rune count. */
module RoomNames {

  const MinRunes := 2
  const MaxRunes := 12

  const TooShort := "房间名太短啦，至少两个字符"
  const TooLong := "房间名最多 12 个字符"
  const BadCharacters := "房间名只能包含中文、字母、数字、空格、下划线和中划线"

  const RoomKeyPrefix := "room:"

  /** Membership in the Han script (`\p{Han}`), by the ranges of Unicode 15.0.
      It covers the range U+4E00..U+9FA5 cited for the client side, and no
      code point below U+2E80 (so nothing of ASCII) is Han. */
  function IsHan(c: char): (b: bool)
    ensures 0x4E00 <= c as int <= 0x9FA5 ==> b
    ensures c as int < 0x2E80 ==> !b
  {
    var x := c as int;
    || 0x2E80 <= x <= 0x2E99
    || 0x2E9B <= x <= 0x2EF3
    || 0x2F00 <= x <= 0x2FD5
    || x == 0x3005
    || x == 0x3007
    || 0x3021 <= x <= 0x3029
    || 0x3038 <= x <= 0x303B
    || 0x3400 <= x <= 0x4DBF
    || 0x4E00 <= x <= 0x9FFF
    || 0xF900 <= x <= 0xFA6D
    || 0xFA70 <= x <= 0xFAD9
    || 0x16FE2 <= x <= 0x16FE3
    || 0x16FF0 <= x <= 0x16FF1
    || 0x20000 <= x <= 0x2A6DF
    || 0x2A700 <= x <= 0x2B739
    || 0x2B740 <= x <= 0x2B81D
    || 0x2B820 <= x <= 0x2CEA1
    || 0x2CEB0 <= x <= 0x2EBE0
    || 0x2F800 <= x <= 0x2FA1D
    || 0x30000 <= x <= 0x3134A
    || 0x31350 <= x <= 0x323AF
  }

  /** One member of the class `[\p{Han}a-zA-Z0-9 _-]`: below the Han blocks
      it is exactly the ASCII letters, digits, space, `_` and `-`. */
  function AllowedRune(c: char): (b: bool)
    ensures IsHan(c) ==> b
    ensures c as int < 0x2E80 ==> (b <==> 'a' <= c <= 'z' || 'A' <= c <= 'Z' || '0' <= c <= '9' || c == ' ' || c == '_' || c == '-')
  {
    || IsHan(c)
    || 'a' <= c <= 'z'
    || 'A' <= c <= 'Z'
    || '0' <= c <= '9'
    || c == ' ' || c == '_' || c == '-'
  }

  /** The anchored pattern `^[\p{Han}a-zA-Z0-9 _-]+$`, matched rune by rune. */
  function MatchesNamePattern(s: string): (b: bool)
    ensures b <==> |s| > 0 && forall i :: 0 <= i < |s| ==> AllowedRune(s[i])
  {
    if |s| == 0 then false
    else AllowedRune(s[0]) && (|s| == 1 || MatchesNamePattern(s[1..]))
  }

  /** Length first (too short, then too long), then the character class; the
      message is empty exactly when the name is accepted. */
  function ValidateRoomName(name: string): (r: (bool, string))
    ensures |name| < MinRunes ==> r == (false, TooShort)
    ensures |name| > MaxRunes ==> r == (false, TooLong)
    ensures r.0 <==> MinRunes <= |name| <= MaxRunes && forall i :: 0 <= i < |name| ==> AllowedRune(name[i])
    ensures MinRunes <= |name| <= MaxRunes ==> r.1 == if r.0 then "" else BadCharacters
  {
    if |name| < MinRunes then (false, TooShort)
    else if |name| > MaxRunes then (false, TooLong)
    else if !MatchesNamePattern(name) then (false, BadCharacters)
    else (true, "")
  }

  /** The number of bytes of the UTF-8 encoding of `s`. */
  function Utf8Length(s: string): nat {
    if |s| == 0 then 0
    else
      var x := s[0] as int;
      (if x < 0x80 then 1 else if x < 0x800 then 2 else if x < 0x10000 then 3 else 4) + Utf8Length(s[1..])
  }

  /** The length rule counts runes: twelve Han characters (36 bytes) pass, a
      single byte that is not in the class is reported as too short, and a
      thirteen-letter name as too long. */
  lemma LengthCountsRunes()
    ensures var twelve := "房间房间房间房间房间房间";
      Utf8Length(twelve) == 36 && ValidateRoomName(twelve) == (true, "")
    ensures ValidateRoomName("!") == (false, TooShort)
    ensures ValidateRoomName("abcdefghijklm") == (false, TooLong)
  {
    var twelve := "房间房间房间房间房间房间";
    assert IsHan('房') && IsHan('间');
    assert |twelve| == 12;
  }

  /** `\p{Han}` is wider than the range U+4E00..U+9FA5 cited as the client-side
      class: a name made of U+3400 passes here. */
  lemma HanWiderThanBasicBlock()
    ensures var name := "㐀㐀";
      ValidateRoomName(name).0 && !(0x4E00 <= name[0] as int <= 0x9FA5)
  {
    assert IsHan('㐀');
  }

  /** The client-side class `[一-龥a-zA-Z0-9 _-]`. */
  predicate FrontendRune(c: char) {
    0x4E00 <= c as int <= 0x9FA5 || 'a' <= c <= 'z' || 'A' <= c <= 'Z' || '0' <= c <= '9'
    || c == ' ' || c == '_' || c == '-'
  }

  /** Every name the client-side rule accepts (2 to 12 characters of its
      class) is accepted here as well. */
  lemma FrontendNamesAccepted(name: string)
    requires MinRunes <= |name| <= MaxRunes
    requires forall i :: 0 <= i < |name| ==> FrontendRune(name[i])
    ensures ValidateRoomName(name) == (true, "")
  {
  }

  /** The number of leading U+0020 spaces. */
  function LeadingSpaces(s: string): (n: nat)
    ensures n <= |s|
    ensures forall k :: 0 <= k < n ==> s[k] == ' '
    ensures n == |s| || s[n] != ' '
  {
    if |s| > 0 && s[0] == ' ' then 1 + LeadingSpaces(s[1..]) else 0
  }

  /** The number of trailing U+0020 spaces. */
  function TrailingSpaces(s: string): (n: nat)
    ensures n <= |s|
    ensures forall k :: |s| - n <= k < |s| ==> s[k] == ' '
    ensures n == |s| || s[|s| - 1 - n] != ' '
  {
    if |s| > 0 && s[|s| - 1] == ' ' then 1 + TrailingSpaces(s[..|s| - 1]) else 0
  }

  /** `r` is the slice of `s` starting at `i`, and everything of `s` around it is U+0020. */
  ghost predicate SpaceFramed(s: string, r: string, i: int) {
    && 0 <= i <= |s| - |r|
    && r == s[i..i + |r|]
    && (forall k :: 0 <= k < i ==> s[k] == ' ')
    && (forall k :: i + |r| <= k < |s| ==> s[k] == ' ')
  }

  /** `s` without its leading and trailing U+0020 spaces; other white space
      stays. A string of spaces only has no end apart from its start. */
  function TrimSpaces(s: string): (r: string)
    ensures r == "" || (r[0] != ' ' && r[|r| - 1] != ' ')
    ensures exists i :: SpaceFramed(s, r, i)
  {
    var i := LeadingSpaces(s);
    var n := TrailingSpaces(s);
    var j := if |s| - n < i then i else |s| - n;
    assert SpaceFramed(s, s[i..j], i);
    s[i..j]
  }

  /** Trimming twice is trimming once. */
  lemma TrimSpacesIdempotent(s: string)
    ensures TrimSpaces(TrimSpaces(s)) == TrimSpaces(s)
  {
    var r := TrimSpaces(s);
    assert LeadingSpaces(r) == 0;
    assert r[0..] == r;
    assert TrailingSpaces(r) == 0;
  }

  /** The result is empty exactly when the input is all spaces (or empty). */
  lemma TrimSpacesEmpty(s: string)
    ensures TrimSpaces(s) == "" <==> forall k :: 0 <= k < |s| ==> s[k] == ' '
  {
    var i := LeadingSpaces(s);
    if forall k :: 0 <= k < |s| ==> s[k] == ' ' {
      assert i == |s|;
    } else {
      var k :| 0 <= k < |s| && s[k] != ' ';
      assert i <= k < |s| - TrailingSpaces(s);
    }
  }

  /** Only U+0020 is trimmed: a string that neither starts nor ends with it,
      such as one framed by tabs, comes back unchanged. */
  lemma TrimKeepsOtherWhiteSpace(s: string)
    requires |s| > 0 && s[0] != ' ' && s[|s| - 1] != ' '
    ensures TrimSpaces(s) == s
  {
    assert LeadingSpaces(s) == 0;
    assert s[0..] == s;
    assert TrailingSpaces(s) == 0;
  }

  /** Rune-index scan from both ends, as the source does it. */
  method SanitizeRoomName(name: string) returns (result: string)
    ensures result == TrimSpaces(name)
  {
    result := "";
    var runes := name;
    var start := 0;
    while start < |runes| && runes[start] == ' '
      invariant 0 <= start <= |runes|
      invariant forall k :: 0 <= k < start ==> runes[k] == ' '
    {
      start := start + 1;
    }
    assert start == LeadingSpaces(name);
    var end := |runes| - 1;
    while end >= start && runes[end] == ' '
      invariant start - 1 <= end <= |runes| - 1
      invariant forall k :: end < k < |runes| ==> runes[k] == ' '
    {
      end := end - 1;
    }
    if end >= start {
      assert runes[end] != ' ';
      assert |runes| - 1 - end == TrailingSpaces(name);
    } else {
      assert TrailingSpaces(name) >= |runes| - start;
    }
    if start <= end {
      result := runes[start..end + 1];
    }
  }

  /** The internal key of a room: the prefix and the trimmed name, case kept. */
  method GenerateRoomID(name: string) returns (id: string)
    ensures id == RoomKeyPrefix + TrimSpaces(name)
    ensures |id| >= |RoomKeyPrefix| && id[..|RoomKeyPrefix|] == RoomKeyPrefix
  {
    var sanitized := SanitizeRoomName(name);
    id := RoomKeyPrefix + sanitized;
  }
}
