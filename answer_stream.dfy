/**
 * The framing of the answer stream: each fragment the answering chain produces is sent
 * as one server-sent event `data: <json>\n\n`, where `<json>` is
 * `json.dumps({"type": "answer_chunk", "data": fragment}, ensure_ascii=False)`.
 * The parser is the client's side: it reads a stream of such events back into the
 * fragments.
 */
module AnswerStream {
  import opened Wrappers
  import opened Text

  // ---------------------------------------------------------------- JSON string escaping

  const HexDigits: string := "0123456789abcdef"

  /**
   * Whether `json.dumps` with `ensure_ascii=False` escapes a character: the quote, the
   * backslash and the control characters below U+0020. Everything else, including
   * non-ASCII letters, is written as it is.
   */
  predicate NeedsEscape(c: char)
  {
    c == '"' || c == '\\' || (c as int) < 0x20
  }

  /** The JSON text of one character inside a string literal. */
  function EscapeChar(c: char): (r: string)
    ensures 0 < |r| <= 6
    ensures forall k :: 0 <= k < |r| ==> (r[k] as int) >= 0x20
    ensures !NeedsEscape(c) <==> r == [c]
  {
    if c == '"' then "\\\""
    else if c == '\\' then "\\\\"
    else if c == '\n' then "\\n"
    else if c == '\r' then "\\r"
    else if c == '\t' then "\\t"
    else if (c as int) == 0x08 then "\\b"
    else if (c as int) == 0x0C then "\\f"
    else if (c as int) < 0x20 then "\\u00" + [HexDigits[(c as int) / 16], HexDigits[(c as int) % 16]]
    else [c]
  }

  /** The body of the JSON string literal for `s` (without the quotes). */
  function JsonEscape(s: string): (r: string)
    ensures forall k :: 0 <= k < |r| ==> (r[k] as int) >= 0x20
    ensures |s| <= |r| <= 6 * |s|
    decreases |s|
  {
    if |s| == 0 then "" else EscapeChar(s[0]) + JsonEscape(s[1..])
  }

  /** Text with nothing to escape is written unchanged. */
  lemma {:induction false} JsonEscapeIdentity(s: string)
    requires forall k :: 0 <= k < |s| ==> !NeedsEscape(s[k])
    ensures JsonEscape(s) == s
    decreases |s|
  {
    if |s| > 0 {
      JsonEscapeIdentity(s[1..]);
    }
  }

  /** The value of a hexadecimal digit, either case. */
  function HexValue(c: char): Option<nat>
  {
    if '0' <= c <= '9' then Some(c as int - '0' as int)
    else if 'a' <= c <= 'f' then Some(c as int - 'a' as int + 10)
    else if 'A' <= c <= 'F' then Some(c as int - 'A' as int + 10)
    else None
  }

  /** The character a two-character escape `\e` stands for. */
  function SimpleEscape(e: char): Option<char>
  {
    if e == '"' then Some('"')
    else if e == '\\' then Some('\\')
    else if e == '/' then Some('/')
    else if e == 'n' then Some('\n')
    else if e == 'r' then Some('\r')
    else if e == 't' then Some('\t')
    else if e == 'b' then Some(0x08 as char)
    else if e == 'f' then Some(0x0C as char)
    else None
  }

  function Prepend(c: char, rest: Option<string>): Option<string>
  {
    match rest
    case Some(t) => Some([c] + t)
    case None => None
  }

  /** The value of `\uXXXX` at the start of `s`, if it is one and names a scalar value. */
  function UnicodeEscape(s: string): Option<char>
  {
    if |s| >= 6 && s[0] == '\\' && s[1] == 'u' &&
       HexValue(s[2]).Some? && HexValue(s[3]).Some? && HexValue(s[4]).Some? && HexValue(s[5]).Some? then
      var v := HexValue(s[2]).value * 4096 + HexValue(s[3]).value * 256 + HexValue(s[4]).value * 16 + HexValue(s[5]).value;
      if 0xD800 <= v < 0xE000 then None else Some(v as char)
    else None
  }

  /**
   * The characters a JSON string body stands for, or `None` if it is not a valid body
   * (a raw quote or control character, or a bad escape).
   */
  function JsonUnescape(s: string): Option<string>
    decreases |s|
  {
    if |s| == 0 then Some("")
    else if s[0] == '\\' then
      if |s| >= 2 && SimpleEscape(s[1]).Some? then Prepend(SimpleEscape(s[1]).value, JsonUnescape(s[2..]))
      else if UnicodeEscape(s).Some? then Prepend(UnicodeEscape(s).value, JsonUnescape(s[6..]))
      else None
    else if NeedsEscape(s[0]) then None
    else Prepend(s[0], JsonUnescape(s[1..]))
  }

  lemma HexDigitValue(n: nat)
    requires n < 16
    ensures HexValue(HexDigits[n]) == Some(n)
  {
  }

  /** A `\uXXXX` escape of a control character without a short form reads back as that character. */
  lemma UnescapeControl(c: char, t: string)
    requires (c as int) < 0x20
    requires c != '\n' && c != '\r' && c != '\t' && (c as int) != 0x08 && (c as int) != 0x0C
    ensures UnicodeEscape(EscapeChar(c) + t) == Some(c)
  {
    var s := EscapeChar(c) + t;
    var n := c as int;
    assert EscapeChar(c) == "\\u00" + [HexDigits[n / 16], HexDigits[n % 16]];
    HexDigitValue(n / 16);
    HexDigitValue(n % 16);
    assert s[..6] == EscapeChar(c);
    assert HexValue(s[2]) == Some(0) && HexValue(s[3]) == Some(0);
    assert HexValue(s[4]) == Some(n / 16) && HexValue(s[5]) == Some(n % 16);
  }

  /** Reading back the escape of one character gives that character. */
  lemma UnescapeEscapeChar(c: char, t: string)
    ensures JsonUnescape(EscapeChar(c) + t) == Prepend(c, JsonUnescape(t))
  {
    var s := EscapeChar(c) + t;
    if !NeedsEscape(c) {
      assert s[1..] == t;
    } else if c == '"' || c == '\\' || c == '\n' || c == '\r' || c == '\t' || (c as int) == 0x08 || (c as int) == 0x0C {
      assert |EscapeChar(c)| == 2;
      assert s[2..] == t;
    } else {
      UnescapeControl(c, t);
      assert s[1] == 'u' && SimpleEscape(s[1]).None?;
      assert s[6..] == t;
    }
  }

  /** Escaping then unescaping gives the text back: the escape loses nothing. */
  lemma {:induction false} JsonRoundTrip(s: string)
    ensures JsonUnescape(JsonEscape(s)) == Some(s)
    decreases |s|
  {
    if |s| > 0 {
      JsonRoundTrip(s[1..]);
      UnescapeEscapeChar(s[0], JsonEscape(s[1..]));
      assert [s[0]] + s[1..] == s;
    }
  }

  // ---------------------------------------------------------------- server-sent events

  const DataField: string := "data: "
  const JsonOpen: string := "{\"type\": \"answer_chunk\", \"data\": \""
  const JsonClose: string := "\"}"

  /** `json.dumps({"type": "answer_chunk", "data": fragment}, ensure_ascii=False)`. */
  function PacketJson(fragment: string): string
  {
    JsonOpen + JsonEscape(fragment) + JsonClose
  }

  /** `f"data: {json.dumps(response_packet, ensure_ascii=False)}\n\n"`. */
  function AnswerPacket(fragment: string): string
  {
    DataField + PacketJson(fragment) + "\n\n"
  }

  /** The packets for a sequence of fragments, one each, in order. */
  function Packets(fragments: seq<string>): (r: seq<string>)
    ensures |r| == |fragments|
    ensures forall i :: 0 <= i < |r| ==> r[i] == AnswerPacket(fragments[i])
  {
    seq(|fragments|, i requires 0 <= i < |fragments| => AnswerPacket(fragments[i]))
  }

  /** The bytes on the wire: the packets one after the other. */
  function Concat(parts: seq<string>): string
    decreases |parts|
  {
    if |parts| == 0 then "" else parts[0] + Concat(parts[1..])
  }

  /** The fragment carried by one event line (the line without its blank-line terminator). */
  function ParsePacketLine(line: string): Option<string>
  {
    var start := |DataField| + |JsonOpen|;
    if |line| >= start + |JsonClose| && line[..start] == DataField + JsonOpen && line[|line| - |JsonClose|..] == JsonClose then
      JsonUnescape(line[start..|line| - |JsonClose|])
    else None
  }

  /** The client's reading of a stream: one fragment per event, in order. */
  function ParseStream(s: string): Option<seq<string>>
    decreases |s|
  {
    if |s| == 0 then Some([])
    else
      var i := IndexOf(s, '\n');
      if i + 1 < |s| && s[i + 1] == '\n' then
        match ParsePacketLine(s[..i])
        case None => None
        case Some(f) =>
          match ParseStream(s[i + 2..])
          case None => None
          case Some(fs) => Some([f] + fs)
      else None
  }

  /** The event line of a packet contains no newline, so the packet ends at its blank line. */
  lemma PacketLineHasNoNewline(fragment: string)
    ensures forall k :: 0 <= k < |DataField + PacketJson(fragment)| ==> (DataField + PacketJson(fragment))[k] != '\n'
  {
    var body := JsonEscape(fragment);
    assert forall k :: 0 <= k < |DataField| ==> DataField[k] != '\n';
    assert forall k :: 0 <= k < |JsonOpen| ==> JsonOpen[k] != '\n';
    assert forall k :: 0 <= k < |JsonClose| ==> JsonClose[k] != '\n';
    assert forall k :: 0 <= k < |body| ==> body[k] != '\n';
  }

  /** The event line of a packet reads back as its fragment. */
  lemma PacketLineRoundTrip(fragment: string)
    ensures ParsePacketLine(DataField + PacketJson(fragment)) == Some(fragment)
  {
    var body := JsonEscape(fragment);
    var line := DataField + PacketJson(fragment);
    var start := |DataField| + |JsonOpen|;
    assert line == (DataField + JsonOpen) + body + JsonClose;
    assert line[..start] == DataField + JsonOpen;
    assert line[|line| - |JsonClose|..] == JsonClose;
    assert line[start..|line| - |JsonClose|] == body;
    JsonRoundTrip(fragment);
  }

  /** One packet in front of a stream reads as its fragment in front of what the stream reads as. */
  lemma ParsePacketThen(fragment: string, rest: string)
    ensures ParseStream(AnswerPacket(fragment) + rest) ==
      match ParseStream(rest)
      case None => None
      case Some(fs) => Some([fragment] + fs)
  {
    var line := DataField + PacketJson(fragment);
    var s := AnswerPacket(fragment) + rest;
    assert s == line + "\n\n" + rest;
    PacketLineHasNoNewline(fragment);
    assert s[|line|] == '\n';
    assert IndexOf(s, '\n') == |line|;
    assert s[..|line|] == line;
    assert s[|line| + 2..] == rest;
    PacketLineRoundTrip(fragment);
  }

  /**
   * The stream of packets for a sequence of fragments reads back as exactly that
   * sequence: one fragment per packet, in order, whatever characters they contain.
   */
  lemma {:induction false} StreamRoundTrip(fragments: seq<string>)
    ensures ParseStream(Concat(Packets(fragments))) == Some(fragments)
    decreases |fragments|
  {
    if |fragments| > 0 {
      var tail := fragments[1..];
      StreamRoundTrip(tail);
      assert Packets(fragments)[1..] == Packets(tail);
      ParsePacketThen(fragments[0], Concat(Packets(tail)));
      assert [fragments[0]] + tail == fragments;
    }
  }
}
