// A reader of JSON texts, against which the printer of JsonText is proved.
module JsonReader {
  import opened Base
  import opened JsonText
  import opened JsonScanner

  // Each function takes what it reads off the front of s; it accepts more than
  // RFC 8259 does, such as a trailing comma.

  predicate IsSpace(b: Byte) {
    b in {0x20, 0x09, 0x0A, 0x0D}
  }

  function ReadWs(s: seq<Byte>): (r: (Ws, seq<Byte>))
    ensures |r.1| <= |s|
  {
    if s == [] || !IsSpace(s[0]) then ([], s)
    else
      var (w, rest) := ReadWs(s[1..]);
      ([s[0]] + w, rest)
  }

  function ReadNumber(s: seq<Byte>): (r: (seq<Byte>, seq<Byte>))
    ensures |r.0| + |r.1| == |s|
  {
    if s == [] || !IsNumberByte(s[0]) then ([], s)
    else
      var (digits, rest) := ReadNumber(s[1..]);
      ([s[0]] + digits, rest)
  }

  function ReadChar(s: seq<Byte>): (r: Option<(JsonChar, seq<Byte>)>)
    ensures r.Some? ==> |r.value.1| < |s|
  {
    if s == [] then None
    else if s[0] != '\\' as Byte then Some((Unescaped(s[0]), s[1..]))
    else if |s| < 2 then None
    else if s[1] != 'u' as Byte then Some((Escape(s[1]), s[2..]))
    else if |s| < 6 then None
    else Some((Unicode(s[2..6]), s[6..]))
  }

  // The characters up to the closing quote.
  function ReadChars(s: seq<Byte>): (r: Option<(seq<JsonChar>, seq<Byte>)>)
    ensures r.Some? ==> |r.value.1| < |s|
    decreases |s|
  {
    if s == [] then None
    else if s[0] == '"' as Byte then Some(([], s[1..]))
    else match ReadChar(s)
      case None => None
      case Some((c, rest)) =>
        match ReadChars(rest)
        case None => None
        case Some((cs, rest)) => Some(([c] + cs, rest))
  }

  function Ascii(text: string): seq<Byte>
    requires forall k | 0 <= k < |text| :: text[k] < 128 as char
  {
    seq(|text|, k requires 0 <= k < |text| => text[k] as Byte)
  }

  function Word(text: string, j: Json, s: seq<Byte>): (r: Option<(Json, seq<Byte>)>)
    requires forall k | 0 <= k < |text| :: text[k] < 128 as char
    ensures r.Some? ==> |r.value.1| == |s| - |text|
  {
    if Ascii(text) <= s then Some((j, s[|text|..])) else None
  }

  function Read(s: seq<Byte>): (r: Option<(Json, seq<Byte>)>)
    ensures r.Some? ==> |r.value.1| < |s|
    decreases |s|, 1
  {
    if s == [] then None
    else match s[0] as char
      case 't' => Word("true", True, s)
      case 'f' => Word("false", False, s)
      case 'n' => Word("null", Null, s)
      case '"' =>
        (match ReadChars(s[1..])
         case None => None
         case Some((cs, rest)) => Some((Str(cs), rest)))
      case '[' =>
        var (open, inner) := ReadWs(s[1..]);
        (match ReadElements(inner)
         case None => None
         case Some((es, rest)) => Some((Arr(open, es), rest)))
      case '{' =>
        var (open, inner) := ReadWs(s[1..]);
        (match ReadMembers(inner)
         case None => None
         case Some((ms, rest)) => Some((Obj(open, ms), rest)))
      case _ =>
        var (text, rest) := ReadNumber(s);
        if text == [] then None else Some((Number(text), rest))
  }

  // The elements up to the closing bracket.
  function ReadElements(s: seq<Byte>): (r: Option<(Elements, seq<Byte>)>)
    ensures r.Some? ==> |r.value.1| < |s|
    decreases |s|, 2
  {
    if s == [] then None
    else if s[0] == ']' as Byte then Some((NoElement, s[1..]))
    else match Read(s)
      case None => None
      case Some((v, s)) =>
        var (after, s) := ReadWs(s);
        if s == [] then None
        else if s[0] == ']' as Byte then Some((Element(v, after, NoElement, []), s[1..]))
        else if s[0] != ',' as Byte then None
        else
          var (before, s) := ReadWs(s[1..]);
          match ReadElements(s)
          case None => None
          case Some((more, rest)) => Some((Element(v, after, more, before), rest))
  }

  // A key and its colon, with the white space on both sides of the colon.
  function ReadKey(s: seq<Byte>): (r: Option<(seq<JsonChar>, Ws, Ws, seq<Byte>)>)
    ensures r.Some? ==> |r.value.3| < |s|
  {
    if s == [] || s[0] != '"' as Byte then None
    else match ReadChars(s[1..])
      case None => None
      case Some((key, s)) =>
        var (afterKey, s) := ReadWs(s);
        if s == [] || s[0] != ':' as Byte then None
        else
          var (beforeValue, s) := ReadWs(s[1..]);
          Some((key, afterKey, beforeValue, s))
  }

  // The members up to the closing brace.
  function ReadMembers(s: seq<Byte>): (r: Option<(Members, seq<Byte>)>)
    ensures r.Some? ==> |r.value.1| < |s|
    decreases |s|, 2
  {
    if s == [] then None
    else if s[0] == '}' as Byte then Some((NoMember, s[1..]))
    else match ReadKey(s)
      case None => None
      case Some((key, afterKey, beforeValue, s)) =>
        match Read(s)
        case None => None
        case Some((v, s)) =>
          var (after, s) := ReadWs(s);
          if s == [] then None
          else if s[0] == '}' as Byte then
            Some((Member(key, afterKey, beforeValue, v, after, NoMember, []), s[1..]))
          else if s[0] != ',' as Byte then None
          else
            var (before, s) := ReadWs(s[1..]);
            match ReadMembers(s)
            case None => None
            case Some((more, rest)) => Some((Member(key, afterKey, beforeValue, v, after, more, before), rest))
  }

  // ---------- reading back what was printed ----------

  lemma {:induction false} WsIsRead(w: Ws, rest: seq<Byte>)
    requires rest == [] || !IsSpace(rest[0])
    ensures ReadWs(w + rest) == (w, rest)
    decreases |w|
  {
    if w == [] {
      assert w + rest == rest;
    } else {
      WsIsRead(w[1..], rest);
      assert (w + rest)[1..] == w[1..] + rest && w == [w[0]] + w[1..];
    }
  }

  lemma {:induction false} NumberIsRead(text: seq<Byte>, rest: seq<Byte>)
    requires forall k | 0 <= k < |text| :: IsNumberByte(text[k])
    requires rest == [] || !IsNumberByte(rest[0])
    ensures ReadNumber(text + rest) == (text, rest)
  {
    if text == [] {
      assert text + rest == rest;
    } else {
      NumberIsRead(text[1..], rest);
      assert (text + rest)[1..] == text[1..] + rest && text == [text[0]] + text[1..];
    }
  }

  lemma CharIsRead(c: JsonChar, rest: seq<Byte>)
    requires c.Valid()
    ensures c.Print() != [] && c.Print()[0] != '"' as Byte && ReadChar(c.Print() + rest) == Some((c, rest))
  {
    var s := c.Print() + rest;
    assert s[|c.Print()|..] == rest;
    if c.Unicode? {
      assert s[2..6] == c.hex;
    }
  }

  lemma {:induction false} CharsAreRead(cs: seq<JsonChar>, rest: seq<Byte>)
    requires ValidString(cs)
    ensures ReadChars(PrintChars(cs) + [QUOTE] + rest) == Some((cs, rest))
  {
    var s := PrintChars(cs) + [QUOTE] + rest;
    if cs != [] {
      var more := PrintChars(cs[1..]) + [QUOTE] + rest;
      CharIsRead(cs[0], more);
      CharsAreRead(cs[1..], rest);
      assert s == cs[0].Print() + more && cs == [cs[0]] + cs[1..];
      hide ReadChar, PrintChars;
    } else {
      assert s == [QUOTE] + rest;
      hide ReadChar;
    }
  }

  lemma StringIsRead(cs: seq<JsonChar>, rest: seq<Byte>)
    requires ValidString(cs)
    ensures var s := PrintString(cs) + rest; s != [] && s[0] == '"' as Byte && ReadChars(s[1..]) == Some((cs, rest))
  {
    CharsAreRead(cs, rest);
    hide PrintChars, ReadChars;
    assert PrintString(cs) + rest == [QUOTE] + (PrintChars(cs) + [QUOTE] + rest);
    assert (PrintString(cs) + rest)[1..] == PrintChars(cs) + [QUOTE] + rest;
  }

  // No more digits follow a number.
  predicate Ends(j: Json, rest: seq<Byte>) {
    j.Number? && rest != [] ==> !IsNumberByte(rest[0])
  }

  // No value begins with white space or with what stands between values.
  lemma FirstByte(j: Json)
    requires Valid(j)
    ensures Print(j) != [] && !IsSpace(Print(j)[0]) && Print(j)[0] as char !in {']', '}', ',', ':'}
  {
  }

  lemma WordIsRead(text: string, j: Json, rest: seq<Byte>)
    requires forall k | 0 <= k < |text| :: text[k] < 128 as char
    ensures Word(text, j, Ascii(text) + rest) == Some((j, rest))
  {
    assert (Ascii(text) + rest)[|text|..] == rest;
  }

  lemma ReadArray(open: Ws, es: Elements, s: seq<Byte>, inner: seq<Byte>, rest: seq<Byte>)
    requires ReadWs(s) == (open, inner) && ReadElements(inner) == Some((es, rest))
    ensures Read([LBRACKET] + s) == Some((Arr(open, es), rest))
  {
    assert ([LBRACKET] + s)[1..] == s;
    hide ReadWs, ReadElements;
  }

  lemma ReadObject(open: Ws, ms: Members, s: seq<Byte>, inner: seq<Byte>, rest: seq<Byte>)
    requires ReadWs(s) == (open, inner) && ReadMembers(inner) == Some((ms, rest))
    ensures Read([LBRACE] + s) == Some((Obj(open, ms), rest))
  {
    assert ([LBRACE] + s)[1..] == s;
    hide ReadWs, ReadMembers;
  }

  lemma ArrayIsRead(open: Ws, es: Elements, rest: seq<Byte>)
    requires ValidElements(es) && ReadElements(PrintElements(es) + [RBRACKET] + rest) == Some((es, rest))
    ensures Read(Print(Arr(open, es)) + rest) == Some((Arr(open, es), rest))
  {
    hide Read, ReadWs, ReadElements, PrintElements;
    var inner := PrintElements(es) + [RBRACKET] + rest;
    ElementsBegin(es, rest);
    WsIsRead(open, inner);
    ReadArray(open, es, open + inner, inner, rest);
    assert Print(Arr(open, es)) + rest == [LBRACKET] + (open + inner);
  }

  lemma ObjectIsRead(open: Ws, ms: Members, rest: seq<Byte>)
    requires ValidMembers(ms) && ReadMembers(PrintMembers(ms) + [RBRACE] + rest) == Some((ms, rest))
    ensures Read(Print(Obj(open, ms)) + rest) == Some((Obj(open, ms), rest))
  {
    hide Read, ReadWs, ReadMembers, PrintMembers;
    var inner := PrintMembers(ms) + [RBRACE] + rest;
    MembersBegin(ms, rest);
    WsIsRead(open, inner);
    ReadObject(open, ms, open + inner, inner, rest);
    assert Print(Obj(open, ms)) + rest == [LBRACE] + (open + inner);
  }

  lemma LastElement(s: seq<Byte>, v: Json, s1: seq<Byte>, after: Ws, rest: seq<Byte>)
    requires s != [] && s[0] != RBRACKET && Read(s) == Some((v, s1)) && ReadWs(s1) == (after, [RBRACKET] + rest)
    ensures ReadElements(s) == Some((Element(v, after, NoElement, []), rest))
  {
    assert ([RBRACKET] + rest)[1..] == rest;
    hide ReadWs, Read;
  }

  lemma OneMoreElement(s: seq<Byte>, v: Json, s1: seq<Byte>, after: Ws, s2: seq<Byte>, before: Ws, s3: seq<Byte>,
                       more: Elements, rest: seq<Byte>)
    requires s != [] && s[0] != RBRACKET && Read(s) == Some((v, s1)) && ReadWs(s1) == (after, [COMMA] + s2)
    requires ReadWs(s2) == (before, s3) && ReadElements(s3) == Some((more, rest))
    ensures ReadElements(s) == Some((Element(v, after, more, before), rest))
  {
    assert ([COMMA] + s2)[1..] == s2;
    hide ReadWs, Read;
  }

  lemma LastMember(s: seq<Byte>, key: seq<JsonChar>, afterKey: Ws, beforeValue: Ws, value: seq<Byte>,
                   v: Json, s1: seq<Byte>, after: Ws, rest: seq<Byte>)
    requires s != [] && s[0] != RBRACE && ReadKey(s) == Some((key, afterKey, beforeValue, value))
    requires Read(value) == Some((v, s1)) && ReadWs(s1) == (after, [RBRACE] + rest)
    ensures ReadMembers(s) == Some((Member(key, afterKey, beforeValue, v, after, NoMember, []), rest))
  {
    assert ([RBRACE] + rest)[1..] == rest;
    hide ReadWs, Read, ReadKey;
  }

  lemma OneMoreMember(s: seq<Byte>, key: seq<JsonChar>, afterKey: Ws, beforeValue: Ws, value: seq<Byte>,
                      v: Json, s1: seq<Byte>, after: Ws, s2: seq<Byte>, before: Ws, s3: seq<Byte>,
                      more: Members, rest: seq<Byte>)
    requires s != [] && s[0] != RBRACE && ReadKey(s) == Some((key, afterKey, beforeValue, value))
    requires Read(value) == Some((v, s1)) && ReadWs(s1) == (after, [COMMA] + s2)
    requires ReadWs(s2) == (before, s3) && ReadMembers(s3) == Some((more, rest))
    ensures ReadMembers(s) == Some((Member(key, afterKey, beforeValue, v, after, more, before), rest))
  {
    hide ReadWs, Read, ReadKey;
    assert ([COMMA] + s2)[1..] == s2;
  }

  lemma KeyIsRead(key: seq<JsonChar>, afterKey: Ws, beforeValue: Ws, value: seq<Byte>)
    requires ValidString(key) && value != [] && !IsSpace(value[0])
    ensures ReadKey(PrintString(key) + (afterKey + ([COLON] + (beforeValue + value))))
         == Some((key, afterKey, beforeValue, value))
  {
    var colon := [COLON] + (beforeValue + value);
    StringIsRead(key, afterKey + colon);
    WsIsRead(afterKey, colon);
    WsIsRead(beforeValue, value);
    assert colon[1..] == beforeValue + value;
    hide ReadWs, ReadChars, PrintString;
  }

  // A value that is no array and no object.
  lemma AtomIsRead(j: Json, rest: seq<Byte>)
    requires Valid(j) && Ends(j, rest) && !j.Arr? && !j.Obj?
    ensures Read(Print(j) + rest) == Some((j, rest))
  {
    hide ReadWs, ReadElements, ReadMembers;
    match j {
      case True =>
        assert Print(j) == Ascii("true");
        WordIsRead("true", True, rest);
      case False =>
        assert Print(j) == Ascii("false");
        WordIsRead("false", False, rest);
      case Null =>
        assert Print(j) == Ascii("null");
        WordIsRead("null", Null, rest);
      case Number(text) =>
        NumberIsRead(text, rest);
        assert IsNumberByte((text + rest)[0]);
        hide ReadNumber;
      case Str(chars) =>
        StringIsRead(chars, rest);
        hide ReadChars;
    }
  }

  // Whatever follows, reading takes exactly the printed value off the front.
  lemma {:induction false} PrintedIsRead(j: Json, rest: seq<Byte>)
    requires Valid(j) && Ends(j, rest)
    ensures Read(Print(j) + rest) == Some((j, rest))
    decreases j, 1
  {
    hide Read, ReadElements, ReadMembers, Print, PrintElements, PrintMembers;
    match j {
      case Arr(open, es) =>
        ElementsAreRead(es, rest);
        ArrayIsRead(open, es, rest);
      case Obj(open, ms) =>
        MembersAreRead(ms, rest);
        ObjectIsRead(open, ms, rest);
      case _ => AtomIsRead(j, rest);
    }
  }

  lemma ElementsBegin(es: Elements, rest: seq<Byte>)
    requires ValidElements(es)
    ensures var s := PrintElements(es) + [RBRACKET] + rest;
      s != [] && !IsSpace(s[0]) && (es.Element? ==> s[0] != RBRACKET)
  {
    if es.Element? {
      FirstByte(es.v);
      hide Print;
    }
  }

  lemma MembersBegin(ms: Members, rest: seq<Byte>)
    ensures var s := PrintMembers(ms) + [RBRACE] + rest; s != [] && !IsSpace(s[0])
  {
  }

  lemma ElementParts(es: Elements, rest: seq<Byte>, follows: seq<Byte>, tail: seq<Byte>)
    requires es.Element? && follows == PrintElements(es.more) + [RBRACKET] + rest
    requires tail == if es.more.NoElement? then [RBRACKET] + rest else [COMMA] + (es.before + follows)
    ensures PrintElements(es) + [RBRACKET] + rest == Print(es.v) + (es.after + tail)
  {
    hide Print;
  }

  lemma {:induction false} ElementsAreRead(es: Elements, rest: seq<Byte>)
    requires ValidElements(es)
    ensures ReadElements(PrintElements(es) + [RBRACKET] + rest) == Some((es, rest))
    decreases es, 0
  {
    var s := PrintElements(es) + [RBRACKET] + rest;
    match es {
      case NoElement =>
        assert s == [RBRACKET] + rest;
        assert s[1..] == rest;
      case Element(v, after, more, before) =>
        hide Read, ReadWs, ReadElements, Print;
        var follows := PrintElements(more) + [RBRACKET] + rest;
        var tail := if more.NoElement? then [RBRACKET] + rest else [COMMA] + (before + follows);
        ElementParts(es, rest, follows, tail);
        ElementsBegin(es, rest);
        PrintedIsRead(v, after + tail);
        WsIsRead(after, tail);
        if more.NoElement? {
          LastElement(s, v, after + tail, after, rest);
        } else {
          ElementsBegin(more, rest);
          WsIsRead(before, follows);
          ElementsAreRead(more, rest);
          OneMoreElement(s, v, after + tail, after, before + follows, before, follows, more, rest);
        }
    }
  }

  lemma Regroup(key: seq<Byte>, a: seq<Byte>, colon: seq<Byte>, b: seq<Byte>, v: seq<Byte>, w: seq<Byte>,
                x: seq<Byte>, m: seq<Byte>, r: seq<Byte>)
    ensures key + a + colon + b + v + w + x + m + r == key + (a + (colon + (b + (v + (w + (x + m + r))))))
  {
    var kac := key + a + colon;
    assert kac + b + v + w + x + m + r == kac + (b + (v + (w + (x + m + r)))) by {
      var t := x + m + r;
      assert kac + b + v + w + x + m + r == kac + b + v + w + t;
      assert kac + b + v + w + t == kac + b + v + (w + t);
      assert kac + b + v + (w + t) == kac + b + (v + (w + t));
    }
    var rest := b + (v + (w + (x + m + r)));
    assert kac + rest == key + a + (colon + rest);
  }

  // What stands between a member and the next one, if there is one.
  function Between(ms: Members): seq<Byte>
    requires ms.Member?
  {
    if ms.more.NoMember? then [] else [COMMA] + ms.before
  }

  lemma PrintedMember(ms: Members)
    requires ms.Member?
    ensures PrintMembers(ms) == PrintString(ms.key) + ms.afterKey + [COLON] + ms.beforeValue + Print(ms.v) + ms.after
        + Between(ms) + PrintMembers(ms.more)
  {
    hide Print, PrintString;
  }

  lemma TailParts(ms: Members, r: seq<Byte>)
    requires ms.Member?
    ensures Between(ms) + PrintMembers(ms.more) + r
      == if ms.more.NoMember? then r else [COMMA] + (ms.before + (PrintMembers(ms.more) + r))
  {
    if ms.more.NoMember? {
      assert Between(ms) + PrintMembers(ms.more) == [];
    } else {
      hide PrintMembers;
      var m := PrintMembers(ms.more);
      assert [COMMA] + ms.before + m + r == [COMMA] + (ms.before + (m + r));
    }
  }

  // What is printed of a member, and where it is taken apart.
  lemma MemberParts(ms: Members, rest: seq<Byte>, follows: seq<Byte>, tail: seq<Byte>)
    requires ms.Member? && follows == PrintMembers(ms.more) + [RBRACE] + rest
    requires tail == if ms.more.NoMember? then [RBRACE] + rest else [COMMA] + (ms.before + follows)
    ensures PrintMembers(ms) + [RBRACE] + rest
      == PrintString(ms.key) + (ms.afterKey + ([COLON] + (ms.beforeValue + (Print(ms.v) + (ms.after + tail)))))
  {
    hide Print, PrintString, PrintMembers, Between;
    var r, m := [RBRACE] + rest, PrintMembers(ms.more);
    Associative(m, [RBRACE], rest);
    Associative(PrintMembers(ms), [RBRACE], rest);
    TailParts(ms, r);
    PrintedMember(ms);
    Regroup(PrintString(ms.key), ms.afterKey, [COLON], ms.beforeValue, Print(ms.v), ms.after, Between(ms), m, r);
  }

  lemma {:induction false} MembersAreRead(ms: Members, rest: seq<Byte>)
    requires ValidMembers(ms)
    ensures ReadMembers(PrintMembers(ms) + [RBRACE] + rest) == Some((ms, rest))
    decreases ms, 0
  {
    var s := PrintMembers(ms) + [RBRACE] + rest;
    match ms {
      case NoMember =>
        assert s == [RBRACE] + rest;
        assert s[1..] == rest;
      case Member(key, afterKey, beforeValue, v, after, more, before) =>
        var follows := PrintMembers(more) + [RBRACE] + rest;
        var tail := if more.NoMember? then [RBRACE] + rest else [COMMA] + (before + follows);
        var value := Print(v) + (after + tail);
        FirstByte(v);
        MemberParts(ms, rest, follows, tail);
        hide Read, ReadWs, ReadMembers, ReadKey, Print, PrintString, PrintMembers, Valid;
        KeyIsRead(key, afterKey, beforeValue, value);
        assert s[0] == QUOTE by { StringIsRead(key, afterKey + ([COLON] + (beforeValue + value))); }
        PrintedIsRead(v, after + tail);
        WsIsRead(after, tail);
        if more.NoMember? {
          LastMember(s, key, afterKey, beforeValue, value, v, after + tail, after, rest);
        } else {
          MembersBegin(more, rest);
          WsIsRead(before, follows);
          MembersAreRead(more, rest);
          OneMoreMember(s, key, afterKey, beforeValue, value, v, after + tail, after, before + follows, before, follows,
                        more, rest);
        }
    }
  }

  // So no two JSON texts are printed alike.
  lemma PrintingIsUnique(j: Json, k: Json)
    requires Valid(j) && Valid(k) && Print(j) == Print(k)
    ensures j == k
  {
    PrintedIsRead(j, []);
    PrintedIsRead(k, []);
    assert Print(j) + [] == Print(j) && Print(k) + [] == Print(k);
  }

  // And what is cut out of the text around an object reads back as that object.
  lemma ExtractedIsRead(before: seq<Byte>, open: Ws, ms: Members, after: seq<Byte>, cut: Option<(nat, nat)>)
    requires LBRACE !in before && Valid(Obj(open, ms)) && Cuts(before + Print(Obj(open, ms)) + after, cut)
    ensures var s := before + Print(Obj(open, ms)) + after;
      && cut.Some? && cut.value.0 <= cut.value.1 <= |s|
      && Read(s[cut.value.0..cut.value.1]) == Some((Obj(open, ms), []))
  {
    hide Print, Read, Cuts;
    ExtractionUndoesPrinting(before, open, ms, after, cut);
    PrintedIsRead(Obj(open, ms), []);
    assert Print(Obj(open, ms)) + [] == Print(Obj(open, ms));
  }

  // The characters by their names in RFC 8259, sections 6 and 7.
  lemma Spelling(b: Byte, hex: seq<Byte>, text: seq<Byte>)
    ensures Unescaped(b).Valid() <==> 0x20 <= b && b as char !in "\"\\"
    ensures Escape(b).Valid() <==> b as char in "\"\\/bfnrt"
    ensures Unicode(hex).Valid() <==>
      |hex| == 4 && forall k | 0 <= k < 4 :: hex[k] as char in "0123456789abcdefABCDEF"
    ensures Valid(Number(text)) <==>
      text != [] && forall k | 0 <= k < |text| :: text[k] as char in "0123456789+-.eE"
    ensures Valid(True) && Valid(False) && Valid(Null)
  {
  }
}
