/**
 * The serial link between the driver and the HL7800 module, seen through the
 * primitives that the driver's base templates give it.
 *
 * The module's side of the link is an input script: a sequence of events,
 * each of which one primitive observes. A reply line is one `Line` event, the
 * integer fields that follow a reply prefix are `Field` events, payload bytes
 * are `Byte` events, and `Silence` means that nothing arrives before the
 * running wait times out. The driver's side is a log of the text it wrote.
 */
module AtStream {

  newtype byte = x: int | 0 <= x < 0x100

  /** The ranges of the C types `uint8_t` and `uint16_t`. */
  type uint8 = x: int | 0 <= x < 0x100
  type uint16 = x: int | 0 <= x < 0x1_0000

  datatype Option<T> = None | Some(value: T)

  /** The reply texts the driver waits for or classifies; any other line is `Other`. */
  datatype Token =
    | Ok          // "OK", the default first awaited reply
    | Error       // "ERROR", the default second awaited reply
    | Connect     // the line-mode handshake of a send or receive request
    | KtcpCfg     // reply prefix of socket creation
    | KtcpInd     // notification that a connect request succeeded or failed
    | KtcpStat    // reply prefix of a socket status query
    | KtcpData    // "data available" notification
    | TcpClose    // "peer closed" notification
    | EofPattern  // the end-of-payload sentinel
    | Other(text: string)

  /** The text of a token as it stands on the wire. */
  function Wire(t: Token): (s: string)
    ensures |s| > 0
  {
    match t
    case Ok => "OK\r\n"
    case Error => "ERROR\r\n"
    case Connect => "\r\nCONNECT\r\n"
    case KtcpCfg => "\r\n+KTCPCFG:"
    case KtcpInd => "\r\n+KTCP_IND:"
    case KtcpStat => "\r\n+KTCPSTAT:"
    case KtcpData => "\r\n+KTCP_DATA:"
    case TcpClose => "\r\n+TCPCLOSE:"
    case EofPattern => "--EOF--Pattern--"
    case Other(text) => text + "\r\n"
  }

  datatype Event =
    | Line(token: Token)
    | Field(value: int)
    | Byte(octet: byte)
    | Silence

  /** What a primitive returned, and the part of the script it left unread. */
  datatype Read<T> = Read(value: T, rest: seq<Event>)

  /** The value the integer reader returns when no integer arrives. */
  const NoInt: int := -9999

  /** The byte a read stores when nothing has arrived: `Stream::read` gives -1. */
  const NoByte: byte := 0xFF

  /** Whether something is waiting to be read (`stream.available()` is nonzero). */
  predicate Available(s: seq<Event>)
  {
    |s| > 0 && !s[0].Silence?
  }

  /**
   * Reads an integer field up to its delimiter, as the `int16_t` the reader
   * returns. A timeout yields `NoInt`; anything else that is not a field
   * yields `NoInt` and is left unread.
   */
  function GetIntBefore(s: seq<Event>): (r: Read<int>)
    ensures |r.rest| <= |s|
    ensures r.rest == s || (|s| > 0 && r.rest == s[1..])
    ensures (|s| > 0 && s[0].Field?) ==> r == Read(Int16(s[0].value), s[1..])
    ensures !(|s| > 0 && s[0].Field?) ==> r.value == NoInt
  {
    if |s| > 0 && s[0].Field? then Read(Int16(s[0].value), s[1..])
    else if |s| > 0 && s[0].Silence? then Read(NoInt, s[1..])
    else Read(NoInt, s)
  }

  /** Skips a field up to its delimiter (or a timeout). */
  function SkipUntil(s: seq<Event>): (r: seq<Event>)
    ensures r == s || (|s| > 0 && r == s[1..])
  {
    if |s| > 0 && (s[0].Field? || s[0].Silence?) then s[1..] else s
  }

  /** ASCII text as the bytes that carry it. */
  function Octets(s: string): (p: seq<byte>)
    ensures |p| == |s|
  {
    seq(|s|, i requires 0 <= i < |s| => (s[i] as int % 0x100) as byte)
  }

  /** Bytes as the characters of the output log. */
  function Chars(p: seq<byte>): (s: string)
    ensures |s| == |p|
    ensures forall i :: 0 <= i < |p| ==> s[i] as int == p[i] as int
  {
    seq(|p|, i requires 0 <= i < |p| => p[i] as int as char)
  }

  /** A payload as the script events that deliver it. */
  function Payload(p: seq<byte>): (s: seq<Event>)
    ensures |s| == |p|
    ensures forall i :: 0 <= i < |p| ==> s[i] == Byte(p[i])
  {
    seq(|p|, i requires 0 <= i < |p| => Byte(p[i]))
  }

  /** The wire text of a single event, as a raw read sees it. */
  function EventText(e: Event): (p: seq<byte>)
    requires e.Line? || e.Field?
    ensures |p| > 0
  {
    if e.Line? then Octets(Wire(e.token)) else Octets(Decimal(e.value))
  }

  /**
   * One raw read (`stream.read()` after the byte wait): a payload byte is
   * taken as it is; a timeout or an exhausted script yields `NoByte`; a line
   * or field that arrives where payload is expected loses its first byte to
   * the read, and the rest of its text stays in the stream as raw bytes.
   */
  function ReadByte(s: seq<Event>): (r: Read<byte>)
  {
    if s == [] then Read(NoByte, [])
    else match s[0]
      case Byte(b) => Read(b, s[1..])
      case Silence => Read(NoByte, s[1..])
      case _ =>
        var text := EventText(s[0]);
        Read(text[0], Payload(text[1..]) + s[1..])
  }

  /** `n` raw reads in a row; the bytes come out in the order they were read. */
  function ReadBytes(s: seq<Event>, n: nat): (r: Read<seq<byte>>)
    ensures |r.value| == n
  {
    if n == 0 then Read([], s)
    else
      var r := ReadBytes(s, n - 1);
      var b := ReadByte(r.rest);
      Read(r.value + [b.value], b.rest)
  }

  /** Decimal numerals, as `Print::print` writes an integer. */
  function Decimal(n: int): (s: string)
    ensures |s| > 0
  {
    if n < 0 then "-" + Digits(-n) else Digits(n)
  }

  function Digits(n: nat): (s: string)
    ensures |s| > 0
    ensures forall i :: 0 <= i < |s| ==> '0' <= s[i] <= '9'
  {
    if n < 10 then [DigitChar(n)] else Digits(n / 10) + [DigitChar(n % 10)]
  }

  function DigitChar(d: nat): (c: char)
    requires d < 10
    ensures '0' <= c <= '9'
  {
    (d + '0' as int) as char
  }

  /** The line `sendAT` writes for a command body: "AT", the body, CR LF. */
  function Command(body: string): (s: string)
  {
    "AT" + body + "\r\n"
  }

  /** Conversions to the C integer types of the driver (two's complement). */
  function Int8(v: int): (r: int)
    ensures -0x80 <= r < 0x80
    ensures (r - v) % 0x100 == 0
    ensures -0x80 <= v < 0x80 ==> r == v
  {
    (v + 0x80) % 0x100 - 0x80
  }

  function Int16(v: int): (r: int)
    ensures -0x8000 <= r < 0x8000
    ensures (r - v) % 0x1_0000 == 0
    ensures -0x8000 <= v < 0x8000 ==> r == v
  {
    (v + 0x8000) % 0x1_0000 - 0x8000
  }

  function Uint8(v: int): (r: uint8)
    ensures (r - v) % 0x100 == 0
    ensures 0 <= v < 0x100 ==> r == v
  {
    v % 0x100
  }

  function Uint16(v: int): (r: uint16)
    ensures (r - v) % 0x1_0000 == 0
    ensures 0 <= v < 0x1_0000 ==> r == v
  {
    v % 0x1_0000
  }

  /** Raw reads of a delivered payload return exactly that payload, in order. */
  lemma {:induction false} ReadBytesInOrder(p: seq<byte>, s: seq<Event>)
    ensures ReadBytes(Payload(p) + s, |p|) == Read(p, s)
  {
    if |p| > 0 {
      var q, x := p[..|p| - 1], p[|p| - 1];
      assert p == q + [x];
      assert Payload(p) + s == Payload(q) + ([Byte(x)] + s);
      ReadBytesInOrder(q, [Byte(x)] + s);
    }
  }

  /** Each read takes one byte even when nothing arrives: a timeout stores `NoByte`. */
  lemma {:induction false} ReadBytesOnSilence(n: nat, s: seq<Event>)
    ensures ReadBytes(Silences(n) + s, n).rest == s
    ensures forall i :: 0 <= i < n ==> ReadBytes(Silences(n) + s, n).value[i] == NoByte
  {
    if n > 0 {
      assert Silences(n) + s == Silences(n - 1) + ([Silence] + s);
      ReadBytesOnSilence(n - 1, [Silence] + s);
    }
  }

  function Silences(n: nat): (s: seq<Event>)
    ensures |s| == n
    ensures forall i :: 0 <= i < n ==> s[i] == Silence
  {
    seq(n, _ => Silence)
  }
}
