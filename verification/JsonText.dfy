// JSON texts in the concrete syntax of RFC 8259, sections 2 to 7, with any
// amount of insignificant white space.
module JsonText {
  import opened Base

  const QUOTE: Byte := 0x22
  const BACKSLASH: Byte := 0x5C
  const LBRACE: Byte := 0x7B
  const RBRACE: Byte := 0x7D
  const LBRACKET: Byte := 0x5B
  const RBRACKET: Byte := 0x5D
  const COMMA: Byte := 0x2C
  const COLON: Byte := 0x3A

  type Ws = w: seq<Byte> | forall k | 0 <= k < |w| :: w[k] in {0x20, 0x09, 0x0A, 0x0D}

  // One unescaped byte (of a UTF-8 sequence, if not ASCII), a two-character
  // escape, or \u with four hexadecimal digits.
  datatype JsonChar = Unescaped(b: Byte) | Escape(b: Byte) | Unicode(hex: seq<Byte>) {
    predicate Valid() {
      match this
      case Unescaped(b) => 0x20 <= b && b != QUOTE && b != BACKSLASH
      case Escape(b) => b in {QUOTE, BACKSLASH, 0x2F, 0x62, 0x66, 0x6E, 0x72, 0x74}
      case Unicode(hex) => |hex| == 4 && forall k | 0 <= k < 4 :: IsHex(hex[k])
    }

    function Print(): seq<Byte> {
      match this
      case Unescaped(b) => [b]
      case Escape(b) => [BACKSLASH, b]
      case Unicode(hex) => [BACKSLASH, 0x75] + hex
    }
  }

  predicate IsHex(b: Byte) {
    0x30 <= b <= 0x39 || 0x41 <= b <= 0x46 || 0x61 <= b <= 0x66
  }

  // Digits, signs, point and exponent marks; what order they come in is of no
  // concern here.
  predicate IsNumberByte(b: Byte) {
    0x30 <= b <= 0x39 || b in {0x2B, 0x2D, 0x2E, 0x45, 0x65}
  }

  datatype Json =
    | True | False | Null
    | Number(text: seq<Byte>)
    | Str(chars: seq<JsonChar>)
    | Arr(open: Ws, elements: Elements)
    | Obj(open: Ws, members: Members)

  datatype Elements = NoElement | Element(v: Json, after: Ws, more: Elements, before: Ws)

  datatype Members = NoMember
    | Member(key: seq<JsonChar>, afterKey: Ws, beforeValue: Ws, v: Json, after: Ws, more: Members, before: Ws)

  predicate ValidString(s: seq<JsonChar>) {
    forall k | 0 <= k < |s| :: s[k].Valid()
  }

  predicate Valid(j: Json) {
    match j
    case True => true
    case False => true
    case Null => true
    case Number(text) => text != [] && forall k | 0 <= k < |text| :: IsNumberByte(text[k])
    case Str(chars) => ValidString(chars)
    case Arr(_, es) => ValidElements(es)
    case Obj(_, ms) => ValidMembers(ms)
  }

  // There is a comma, and white space behind it, only before another element.
  predicate ValidElements(es: Elements) {
    es.Element? ==> Valid(es.v) && ValidElements(es.more) && (es.more.NoElement? ==> es.before == [])
  }

  predicate ValidMembers(ms: Members) {
    ms.Member? ==>
      ValidString(ms.key) && Valid(ms.v) && ValidMembers(ms.more) && (ms.more.NoMember? ==> ms.before == [])
  }

  function PrintChars(s: seq<JsonChar>): seq<Byte> {
    if s == [] then [] else s[0].Print() + PrintChars(s[1..])
  }

  function PrintString(s: seq<JsonChar>): seq<Byte> {
    [QUOTE] + PrintChars(s) + [QUOTE]
  }

  function Print(j: Json): seq<Byte> {
    match j
    case True => [0x74, 0x72, 0x75, 0x65]
    case False => [0x66, 0x61, 0x6C, 0x73, 0x65]
    case Null => [0x6E, 0x75, 0x6C, 0x6C]
    case Number(text) => text
    case Str(chars) => PrintString(chars)
    case Arr(open, es) => [LBRACKET] + open + PrintElements(es) + [RBRACKET]
    case Obj(open, ms) => [LBRACE] + open + PrintMembers(ms) + [RBRACE]
  }

  function PrintElements(es: Elements): seq<Byte> {
    match es
    case NoElement => []
    case Element(v, after, more, before) =>
      Print(v) + after + (if more.NoElement? then [] else [COMMA] + before) + PrintElements(more)
  }

  function PrintMembers(ms: Members): seq<Byte> {
    match ms
    case NoMember => []
    case Member(key, afterKey, beforeValue, v, after, more, before) =>
      PrintString(key) + afterKey + [COLON] + beforeValue + Print(v) + after
      + (if more.NoMember? then [] else [COMMA] + before) + PrintMembers(more)
  }
}
