/**
 * The two control frames the client sends to the service,
 *   {"action":"join","id":<channel>}   and   {"action":"leave","id":<channel>},
 * as `JSON.stringify` renders them: the keys in insertion order, no white space,
 * and each string quoted by the QuoteJSONString rules of the ECMAScript
 * specification. Next to the encoder stands a decoder for exactly this object
 * shape, and the round trip between the two is proved.
 */
module ControlFrames {
  import opened Wrappers

  datatype Action = Join | Leave

  datatype ControlFrame = ControlFrame(action: Action, id: string)

  /** The value of the "action" key for each kind of frame. */
  function ActionName(a: Action): (name: string)
  {
    match a
    case Join => "join"
    case Leave => "leave"
  }

  // ---------------------------------------------------------------------------
  // Encoding: QuoteJSONString
  // ---------------------------------------------------------------------------

  /** The lower-case hexadecimal digit for `n`. */
  function HexDigit(n: nat): (c: char)
    requires n < 16
    ensures '0' <= c <= '9' || 'a' <= c <= 'f'
  {
    if n < 10 then ('0' as int + n) as char else ('a' as int + n - 10) as char
  }

  /** How one character appears inside a quoted JSON string. */
  function EscapeChar(c: char): (e: string)
  {
    if c == '"' then ['\\', '"']
    else if c == '\\' then ['\\', '\\']
    else if c as int == 0x08 then ['\\', 'b']
    else if c as int == 0x09 then ['\\', 't']
    else if c as int == 0x0A then ['\\', 'n']
    else if c as int == 0x0C then ['\\', 'f']
    else if c as int == 0x0D then ['\\', 'r']
    else if c as int < 0x20 then ['\\', 'u', '0', '0', HexDigit(c as int / 16), HexDigit(c as int % 16)]
    else [c]
  }

  /** The body of a quoted JSON string, without the surrounding quotes. */
  function Escape(s: string): (e: string)
  {
    if s == [] then [] else EscapeChar(s[0]) + Escape(s[1..])
  }

  /** `JSON.stringify` of a string value. */
  function Quote(s: string): (q: string)
  {
    "\"" + Escape(s) + "\""
  }

  /** `JSON.stringify({"action": ActionName(a), "id": id})`. */
  function Frame(a: Action, id: string): (f: string)
  {
    "{\"action\":" + Quote(ActionName(a)) + ",\"id\":" + Quote(id) + "}"
  }

  function JoinFrame(channel: string): (f: string)
  {
    Frame(Join, channel)
  }

  function LeaveFrame(channel: string): (f: string)
  {
    Frame(Leave, channel)
  }

  // ---------------------------------------------------------------------------
  // Decoding: the inverse, for this one object shape
  // ---------------------------------------------------------------------------

  /** The value of a hexadecimal digit of either case. */
  function HexValue(c: char): (r: Option<nat>)
    ensures r.Some? ==> r.value < 16
  {
    if '0' <= c <= '9' then Some(c as int - '0' as int)
    else if 'a' <= c <= 'f' then Some(c as int - 'a' as int + 10)
    else if 'A' <= c <= 'F' then Some(c as int - 'A' as int + 10)
    else None
  }

  /**
   * Decodes the escape sequence whose backslash has just been read; `t` is what
   * follows the backslash. Gives the character and how many characters of `t`
   * the escape took.
   */
  function DecodeEscape(t: string): (r: Option<(char, nat)>)
    ensures r.Some? ==> 1 <= r.value.1 <= |t|
  {
    if |t| == 0 then None
    else if t[0] == '"' || t[0] == '\\' || t[0] == '/' then Some((t[0], 1))
    else if t[0] == 'b' then Some((0x08 as char, 1))
    else if t[0] == 't' then Some((0x09 as char, 1))
    else if t[0] == 'n' then Some((0x0A as char, 1))
    else if t[0] == 'f' then Some((0x0C as char, 1))
    else if t[0] == 'r' then Some((0x0D as char, 1))
    else if t[0] == 'u' && |t| >= 5 then
      match (HexValue(t[1]), HexValue(t[2]), HexValue(t[3]), HexValue(t[4]))
      case (Some(d3), Some(d2), Some(d1), Some(d0)) =>
        var v := d3 * 4096 + d2 * 256 + d1 * 16 + d0;
        // a lone surrogate is not a character of this model
        if 0xD800 <= v < 0xE000 then None else Some((v as char, 5))
      case _ => None
    else None
  }

  /** Prepends `c` to the decoded string of a successful decoding. */
  function Cons(c: char, r: Option<(string, string)>): (r': Option<(string, string)>)
  {
    match r
    case None => None
    case Some((body, rest)) => Some(([c] + body, rest))
  }

  /**
   * Reads the body of a quoted JSON string whose opening quote has been read:
   * gives the decoded string and what follows the closing quote, or None when
   * there is no closing quote, a bad escape, or a raw control character.
   */
  function Unescape(s: string): (r: Option<(string, string)>)
    decreases |s|
  {
    if s == [] then None
    else if s[0] == '"' then Some(([], s[1..]))
    else if s[0] == '\\' then
      match DecodeEscape(s[1..])
      case None => None
      case Some((c, n)) => Cons(c, Unescape(s[1 + n..]))
    else if s[0] as int < 0x20 then None
    else Cons(s[0], Unescape(s[1..]))
  }

  const ActionKey: string := "{\"action\":\""
  const IdKey: string := ",\"id\":\""

  /** Reads a frame of the shape {"action":"join"|"leave","id":<string>}. */
  function ParseControlFrame(f: string): (r: Option<ControlFrame>)
  {
    if !(ActionKey <= f) then None
    else match Unescape(f[|ActionKey|..])
      case None => None
      case Some((a, rest)) =>
        if !(IdKey <= rest) then None
        else match Unescape(rest[|IdKey|..])
          case None => None
          case Some((id, tail)) =>
            if tail != "}" then None
            else if a == "join" then Some(ControlFrame(Join, id))
            else if a == "leave" then Some(ControlFrame(Leave, id))
            else None
  }

  // ---------------------------------------------------------------------------
  // Round trip
  // ---------------------------------------------------------------------------

  lemma HexDigitValue(n: nat)
    requires n < 16
    ensures HexValue(HexDigit(n)) == Some(n)
  {
  }

  /** Decoding the escape of one character gives back that character. */
  lemma {:induction false} UnescapeChar(c: char, t: string)
    ensures Unescape(EscapeChar(c) + t) == Cons(c, Unescape(t))
  {
    var e := EscapeChar(c);
    var s := e + t;
    if c == '"' || c == '\\' || c as int < 0x20 {
      assert s[0] == '\\';
      if c == '"' || c == '\\' || c as int in {0x08, 0x09, 0x0A, 0x0C, 0x0D} {
        assert s[1..] == [e[1]] + t;
        assert s[2..] == t;
      } else {
        var hi, lo := c as int / 16, c as int % 16;
        HexDigitValue(hi);
        HexDigitValue(lo);
        assert s[1..] == ['u', '0', '0', HexDigit(hi), HexDigit(lo)] + t;
        assert s[6..] == t;
        assert DecodeEscape(s[1..]) == Some((c, 5));
      }
    } else {
      assert e == [c];
      assert s[1..] == t;
    }
  }

  /** Decoding an escaped string up to its closing quote gives back the string and the rest. */
  lemma {:induction false} UnescapeEscape(s: string, rest: string)
    ensures Unescape(Escape(s) + "\"" + rest) == Some((s, rest))
  {
    if s == [] {
      assert Escape(s) + "\"" + rest == ['"'] + rest;
    } else {
      var t := Escape(s[1..]) + "\"" + rest;
      assert Escape(s) + "\"" + rest == EscapeChar(s[0]) + t;
      UnescapeChar(s[0], t);
      UnescapeEscape(s[1..], rest);
      assert [s[0]] + s[1..] == s;
    }
  }

  /** Regroups the concatenation that `Frame` builds, for any two string bodies. */
  lemma Regroup(x: string, y: string)
    ensures "{\"action\":" + ("\"" + x + "\"") + ",\"id\":" + ("\"" + y + "\"") + "}"
         == ActionKey + (x + "\"" + (IdKey + (y + "\"" + "}")))
  {
    assert "{\"action\":" + "\"" == ActionKey;
    assert "\"" + ",\"id\":" + "\"" == "\"" + IdKey;
  }

  /** The frame text, split at the points where the decoder reads. */
  lemma FrameLayout(a: Action, id: string)
    ensures Frame(a, id) == ActionKey + (Escape(ActionName(a)) + "\"" + (IdKey + (Escape(id) + "\"" + "}")))
  {
    Regroup(Escape(ActionName(a)), Escape(id));
  }

  /** Every control frame the client sends decodes to the action and channel it was built from. */
  lemma ParseFrame(a: Action, id: string)
    ensures ParseControlFrame(Frame(a, id)) == Some(ControlFrame(a, id))
  {
    var name := ActionName(a);
    var tail := Escape(id) + "\"" + "}";
    var afterAction := IdKey + tail;
    var body := Escape(name) + "\"" + afterAction;
    var f := Frame(a, id);
    FrameLayout(a, id);
    assert f == ActionKey + body;
    assert ActionKey <= f;
    assert f[|ActionKey|..] == body;
    UnescapeEscape(name, afterAction);
    assert IdKey <= afterAction;
    assert afterAction[|IdKey|..] == tail;
    UnescapeEscape(id, "}");
  }

  /** Two sent control frames are equal only when action and channel are. */
  lemma FrameInjective(a1: Action, id1: string, a2: Action, id2: string)
    ensures Frame(a1, id1) == Frame(a2, id2) <==> a1 == a2 && id1 == id2
  {
    ParseFrame(a1, id1);
    ParseFrame(a2, id2);
  }
}
