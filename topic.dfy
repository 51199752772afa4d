/** The room-topic codec of src/commands/sendopenticket.ts: a binding
    `[conversationId, ownerId]` is stored in a channel topic as a sentinel of
    five LEFT-TO-RIGHT MARKs followed by the JSON text of the two-string array. */
module Topic {
  import opened Common

  const LeftToRightMark: char := '\U{200E}'
  const Sentinel: string := [LeftToRightMark, LeftToRightMark, LeftToRightMark, LeftToRightMark, LeftToRightMark]

  /** Longest topic `buildTopic` accepts, in UTF-16 code units. */
  const MaxTopicLength: nat := 800

  /** Human-readable text the channel-creation code writes before the payload. */
  const SupportRequestTopicPrefix: string := "Support request\n\n"

  datatype Payload = Payload(conversation: string, owner: string)

  datatype TopicError = PayloadTooLarge(length: nat)

  /** What `parseTopic` gives: `undefined`, a payload, or a `JSON.parse` failure. */
  datatype Parsed = NotBridged | Bound(payload: Payload) | Malformed

  // ---------------------------------------------------------------------------
  // String length as JavaScript measures it

  function CodeUnits(c: char): nat
  {
    if c as int < 0x1_0000 then 1 else 2
  }

  /** `s.length`: the number of UTF-16 code units of `s`. */
  function Utf16Length(s: string): nat
  {
    if s == [] then 0 else CodeUnits(s[0]) + Utf16Length(s[1..])
  }

  lemma {:induction false} Utf16LengthAppend(a: string, b: string)
    ensures Utf16Length(a + b) == Utf16Length(a) + Utf16Length(b)
  {
    if a != [] {
      assert (a + b)[0] == a[0];
      assert (a + b)[1..] == a[1..] + b;
      Utf16LengthAppend(a[1..], b);
    } else {
      assert a + b == b;
    }
  }

  lemma {:induction false} Utf16LengthBounds(s: string)
    ensures |s| <= Utf16Length(s) <= 2 * |s|
  {
    if s != [] {
      Utf16LengthBounds(s[1..]);
    }
  }

  // ---------------------------------------------------------------------------
  // JSON.stringify of a string (ECMAScript QuoteJSONString)

  function HexDigit(n: nat): (c: char)
    requires n < 16
    ensures IsHexDigit(c) && HexValue(c) == n
  {
    if n < 10 then (48 + n) as char else (87 + n) as char
  }

  predicate IsHexDigit(c: char)
  {
    '0' <= c <= '9' || 'a' <= c <= 'f' || 'A' <= c <= 'F'
  }

  function HexValue(c: char): (n: nat)
    requires IsHexDigit(c)
    ensures n < 16
  {
    if '0' <= c <= '9' then c as int - 48
    else if 'a' <= c <= 'f' then c as int - 87
    else c as int - 55
  }

  /** The JSON text of one character inside a string literal. */
  function EscapeChar(c: char): string
  {
    if c == '"' then ['\\', '"']
    else if c == '\\' then ['\\', '\\']
    else if c == '\U{8}' then ['\\', 'b']
    else if c == '\t' then ['\\', 't']
    else if c == '\n' then ['\\', 'n']
    else if c == '\U{C}' then ['\\', 'f']
    else if c == '\r' then ['\\', 'r']
    else if c as int < 0x20 then ['\\', 'u', '0', '0', HexDigit(c as int / 16), HexDigit(c as int % 16)]
    else [c]
  }

  /** The characters between the quotes of `JSON.stringify(s)`. */
  function EscapeBody(s: string): string
  {
    if s == [] then [] else EscapeChar(s[0]) + EscapeBody(s[1..])
  }

  function Quote(s: string): string
  {
    "\"" + EscapeBody(s) + "\""
  }

  /** `JSON.stringify([conversation, owner])`. */
  function Stringify(p: Payload): string
  {
    "[" + Quote(p.conversation) + "," + Quote(p.owner) + "]"
  }

  // ---------------------------------------------------------------------------
  // JSON.parse, for the text that follows the sentinel

  predicate IsJsonWhitespace(c: char)
  {
    c == ' ' || c == '\t' || c == '\n' || c == '\r'
  }

  function SkipWhitespace(s: string): (r: string)
    ensures |r| <= |s|
  {
    if s != [] && IsJsonWhitespace(s[0]) then SkipWhitespace(s[1..]) else s
  }

  /** The character a one-letter escape `\e` stands for. */
  function SimpleEscape(e: char): Option<char>
  {
    if e == '"' then Some('"')
    else if e == '\\' then Some('\\')
    else if e == '/' then Some('/')
    else if e == 'b' then Some('\U{8}')
    else if e == 'f' then Some('\U{C}')
    else if e == 'n' then Some('\n')
    else if e == 'r' then Some('\r')
    else if e == 't' then Some('\t')
    else None
  }

  function Prepend(c: char, r: Option<(string, string)>): Option<(string, string)>
  {
    match r
    case None => None
    case Some((text, rest)) => Some(([c] + text, rest))
  }

  /** Reads a string literal whose opening quote is already consumed; gives the
      decoded text and what follows the closing quote. */
  function ParseStringBody(s: string): (r: Option<(string, string)>)
    ensures r.Some? ==> |r.value.1| < |s|
    decreases |s|
  {
    if s == [] then None
    else if s[0] == '"' then Some(([], s[1..]))
    else if s[0] == '\\' then
      if |s| < 2 then None
      else if SimpleEscape(s[1]).Some? then Prepend(SimpleEscape(s[1]).value, ParseStringBody(s[2..]))
      else if s[1] == 'u' && |s| >= 6 && IsHexDigit(s[2]) && IsHexDigit(s[3]) && IsHexDigit(s[4]) && IsHexDigit(s[5]) then
        var v := ((HexValue(s[2]) * 16 + HexValue(s[3])) * 16 + HexValue(s[4])) * 16 + HexValue(s[5]);
        if 0xD800 <= v < 0xE000 then None
        else Prepend(v as char, ParseStringBody(s[6..]))
      else None
    else if s[0] as int < 0x20 then None
    else Prepend(s[0], ParseStringBody(s[1..]))
  }

  /** Reads `JSON-whitespace "..." JSON-whitespace` followed by `delimiter`. */
  function ParseStringThen(s: string, delimiter: char): Option<(string, string)>
  {
    var s1 := SkipWhitespace(s);
    if s1 == [] || s1[0] != '"' then None
    else match ParseStringBody(s1[1..])
      case None => None
      case Some((text, rest)) =>
        var s2 := SkipWhitespace(rest);
        if s2 == [] || s2[0] != delimiter then None else Some((text, s2[1..]))
  }

  /** `JSON.parse` restricted to a complete two-string array. */
  function ParsePayload(s: string): Option<Payload>
  {
    var s1 := SkipWhitespace(s);
    if s1 == [] || s1[0] != '[' then None
    else match ParseStringThen(s1[1..], ',')
      case None => None
      case Some((conversation, rest)) =>
        match ParseStringThen(rest, ']')
        case None => None
        case Some((owner, tail)) =>
          if SkipWhitespace(tail) == [] then Some(Payload(conversation, owner)) else None
  }

  // ---------------------------------------------------------------------------
  // buildTopic / parseTopic

  /** `buildTopic`: the sentinel and the JSON array, refused beyond 800 code units. */
  function BuildTopic(p: Payload): (r: Result<string, TopicError>)
    ensures r.Ok? <==> Utf16Length(Sentinel + Stringify(p)) <= MaxTopicLength
    ensures r.Ok? ==> r.value == Sentinel + Stringify(p)
    ensures r.Err? ==> r.error.length > MaxTopicLength
  {
    var topic := Sentinel + Stringify(p);
    if Utf16Length(topic) > MaxTopicLength then Err(PayloadTooLarge(Utf16Length(topic))) else Ok(topic)
  }

  /** `parseTopic`: `undefined` for a missing or empty topic or one without the
      sentinel; otherwise the JSON after the first sentinel. */
  function ParseTopic(topic: Option<string>): (r: Parsed)
    ensures topic.None? || topic == Some("") ==> r == NotBridged
    ensures topic.Some? ==> (r == NotBridged <==> !Contains(topic.value, Sentinel))
  {
    match topic
    case None => NotBridged
    case Some(t) =>
      IndexOfFindsContained(t, Sentinel);
      if t == [] then NotBridged
      else match IndexOf(t, Sentinel, 0)
        case None => NotBridged
        case Some(idx) =>
          match ParsePayload(t[idx + |Sentinel|..])
          case None => Malformed
          case Some(p) => Bound(p)
  }

  /** The topic a new support channel gets. */
  function SupportTopic(p: Payload): Result<string, TopicError>
  {
    match BuildTopic(p)
    case Ok(t) => Ok(SupportRequestTopicPrefix + t)
    case Err(e) => Err(e)
  }

  // ---------------------------------------------------------------------------
  // Properties

  lemma HexDigitsRoundTrip(c: char)
    requires c as int < 0x20
    ensures ((HexValue('0') * 16 + HexValue('0')) * 16 + HexValue(HexDigit(c as int / 16))) * 16
            + HexValue(HexDigit(c as int % 16)) == c as int
  {
  }

  /** Reading back the escape of one character yields that character. */
  lemma EscapeCharRoundTrip(c: char, tail: string)
    ensures ParseStringBody(EscapeChar(c) + tail) == Prepend(c, ParseStringBody(tail))
  {
    var s := EscapeChar(c) + tail;
    if c == '"' || c == '\\' || c == '\U{8}' || c == '\t' || c == '\n' || c == '\U{C}' || c == '\r' {
      assert s[2..] == tail;
    } else if c as int < 0x20 {
      assert s[6..] == tail;
      HexDigitsRoundTrip(c);
    } else {
      assert s[1..] == tail;
    }
  }

  lemma {:induction false} EscapeBodyRoundTrip(text: string, rest: string)
    ensures ParseStringBody(EscapeBody(text) + "\"" + rest) == Some((text, rest))
  {
    if text == [] {
      assert EscapeBody(text) + "\"" + rest == "\"" + rest;
    } else {
      var tail := EscapeBody(text[1..]) + "\"" + rest;
      assert EscapeBody(text) + "\"" + rest == EscapeChar(text[0]) + tail;
      EscapeCharRoundTrip(text[0], tail);
      EscapeBodyRoundTrip(text[1..], rest);
      assert [text[0]] + text[1..] == text;
    }
  }

  lemma QuoteRoundTrip(text: string, delimiter: char, rest: string)
    requires !IsJsonWhitespace(delimiter)
    ensures ParseStringThen(Quote(text) + [delimiter] + rest, delimiter) == Some((text, rest))
  {
    var s := Quote(text) + [delimiter] + rest;
    assert SkipWhitespace(s) == s;
    assert s[1..] == EscapeBody(text) + "\"" + ([delimiter] + rest);
    EscapeBodyRoundTrip(text, [delimiter] + rest);
    assert SkipWhitespace([delimiter] + rest) == [delimiter] + rest;
  }

  /** `JSON.parse(JSON.stringify([c, o]))` gives back `[c, o]`. */
  lemma StringifyRoundTrip(p: Payload)
    ensures ParsePayload(Stringify(p)) == Some(p)
  {
    var rest := Quote(p.owner) + "]";
    StringifyShape(p);
    StringsOfPair(p.conversation, p.owner, rest);
    ParseBracketedPair(Stringify(p), p.conversation, rest, p.owner);
  }

  lemma StringifyShape(p: Payload)
    ensures Stringify(p) != [] && Stringify(p)[0] == '['
    ensures Stringify(p)[1..] == Quote(p.conversation) + [','] + (Quote(p.owner) + "]")
  {
  }

  /** Both string literals of the array read back, each up to its delimiter. */
  lemma StringsOfPair(conversation: string, owner: string, rest: string)
    requires rest == Quote(owner) + "]"
    ensures ParseStringThen(Quote(conversation) + [','] + rest, ',') == Some((conversation, rest))
    ensures ParseStringThen(rest, ']') == Some((owner, []))
  {
    QuoteRoundTrip(conversation, ',', rest);
    assert rest == Quote(owner) + [']'] + [];
    QuoteRoundTrip(owner, ']', []);
  }

  /** The array parser, once both strings are read. */
  lemma ParseBracketedPair(s: string, conversation: string, rest: string, owner: string)
    requires s != [] && s[0] == '['
    requires ParseStringThen(s[1..], ',') == Some((conversation, rest))
    requires ParseStringThen(rest, ']') == Some((owner, []))
    ensures ParsePayload(s) == Some(Payload(conversation, owner))
  {
    NoLeadingWhitespace(s);
    NoLeadingWhitespace([]);
  }

  lemma NoLeadingWhitespace(s: string)
    requires s == [] || !IsJsonWhitespace(s[0])
    ensures SkipWhitespace(s) == s
  {
  }

  /** Round trip through a topic whose human-written prefix has no LEFT-TO-RIGHT MARK. */
  lemma TopicRoundTrip(prefix: string, p: Payload)
    requires forall i :: 0 <= i < |prefix| ==> prefix[i] != LeftToRightMark
    requires BuildTopic(p).Ok?
    ensures ParseTopic(Some(prefix + BuildTopic(p).value)) == Bound(p)
  {
    var t := prefix + BuildTopic(p).value;
    assert OccursAt(t, Sentinel, |prefix|) by {
      assert t[|prefix|..|prefix| + |Sentinel|] == Sentinel;
    }
    forall j: nat | j < |prefix|
      ensures !OccursAt(t, Sentinel, j)
    {
      assert t[j] == prefix[j] != LeftToRightMark;
    }
    assert IndexOf(t, Sentinel, 0) == Some(|prefix|);
    assert t[|prefix| + |Sentinel|..] == Stringify(p);
    StringifyRoundTrip(p);
  }

  /** The topic written at channel creation is read back as the same binding. */
  lemma SupportTopicRoundTrip(p: Payload)
    requires SupportTopic(p).Ok?
    ensures ParseTopic(Some(SupportTopic(p).value)) == Bound(p)
  {
    assert forall i :: 0 <= i < |SupportRequestTopicPrefix| ==> SupportRequestTopicPrefix[i] != LeftToRightMark;
    TopicRoundTrip(SupportRequestTopicPrefix, p);
  }

  /** An id that `JSON.stringify` copies verbatim and that has no supplementary
      characters, such as a Discord snowflake or a Sunshine hex id. */
  predicate PlainId(s: string)
  {
    forall i :: 0 <= i < |s| ==> 0x20 <= s[i] as int < 0x1_0000 && s[i] != '"' && s[i] != '\\'
  }

  lemma {:induction false} PlainIdEscapesToItself(s: string)
    requires PlainId(s)
    ensures EscapeBody(s) == s && Utf16Length(s) == |s|
  {
    if s != [] {
      PlainIdEscapesToItself(s[1..]);
      assert [s[0]] + s[1..] == s;
    }
  }

  predicate InBasicPlane(s: string)
  {
    forall i :: 0 <= i < |s| ==> s[i] as int < 0x1_0000
  }

  lemma {:induction false} BasicPlaneLength(s: string)
    requires InBasicPlane(s)
    ensures Utf16Length(s) == |s|
  {
    if s != [] {
      BasicPlaneLength(s[1..]);
    }
  }

  lemma {:induction false} BasicPlaneAppend(a: string, b: string)
    requires InBasicPlane(a) && InBasicPlane(b)
    ensures InBasicPlane(a + b)
  {
    forall i | 0 <= i < |a + b| ensures (a + b)[i] as int < 0x1_0000 {
      if i >= |a| {
        assert (a + b)[i] == b[i - |a|];
      }
    }
  }

  lemma PlainStringify(p: Payload)
    requires PlainId(p.conversation) && PlainId(p.owner)
    ensures Stringify(p) == "[\"" + p.conversation + "\",\"" + p.owner + "\"]"
  {
    PlainIdEscapesToItself(p.conversation);
    PlainIdEscapesToItself(p.owner);
  }

  /** For plain ids the topic is 12 code units longer than the two ids, so
      `buildTopic` accepts exactly the pairs of total length at most 788. */
  lemma PlainTopicLength(p: Payload)
    requires PlainId(p.conversation) && PlainId(p.owner)
    ensures Utf16Length(Sentinel + Stringify(p)) == 12 + |p.conversation| + |p.owner|
    ensures BuildTopic(p).Ok? <==> |p.conversation| + |p.owner| <= MaxTopicLength - 12
  {
    var open, middle, close := Sentinel + "[\"", "\",\"", "\"]";
    PlainStringify(p);
    var s := open + p.conversation + middle + p.owner + close;
    assert Sentinel + Stringify(p) == s;
    assert InBasicPlane(p.conversation) && InBasicPlane(p.owner);
    assert InBasicPlane(open) && InBasicPlane(middle) && InBasicPlane(close);
    BasicPlaneAppend(open, p.conversation);
    BasicPlaneAppend(open + p.conversation, middle);
    BasicPlaneAppend(open + p.conversation + middle, p.owner);
    BasicPlaneAppend(open + p.conversation + middle + p.owner, close);
    BasicPlaneLength(s);
  }
}
