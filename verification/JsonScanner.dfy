// The tolerant extraction of parseTaskResult in
// server/internal/loop/coordinator_helpers.go.
module JsonScanner {
  import opened Base
  import opened JsonText

  // ---------- the scanner's state ----------

  datatype Scan = Scan(depth: int, inString: bool, escape: bool) {
    function Step(c: Byte): Scan {
      if escape then this.(escape := false)
      else if c == BACKSLASH && inString then this.(escape := true)
      else if c == QUOTE then this.(inString := !inString)
      else if inString then this
      else if c == LBRACE then this.(depth := depth + 1)
      else if c == RBRACE then this.(depth := depth - 1)
      else this
    }

    // The byte at which the scanner stops.
    predicate Closes(c: Byte) {
      !escape && !inString && c == RBRACE && depth == 1
    }
  }

  function Outside(depth: int): Scan {
    Scan(depth, false, false)
  }

  // How many bytes of t are consumed up to and including the closing brace.
  function Close(t: seq<Byte>, st: Scan): (r: Option<nat>)
    ensures r.Some? ==> 0 < r.value <= |t|
  {
    if t == [] then None
    else if st.Closes(t[0]) then Some(1)
    else Shift(1, Close(t[1..], st.Step(t[0])))
  }

  function Shift(k: nat, r: Option<nat>): Option<nat> {
    if r.Some? then Some(k + r.value) else None
  }

  // ---------- balanced text ----------

  // A piece of text in which braces balance, strings are closed, and braces in
  // strings do not count.
  datatype Body =
    | End
    | Skip(b: Byte, rest: Body)
    | Text(pieces: seq<Piece>, rest: Body)
    | Group(inner: Body, rest: Body)

  datatype Piece = Plain(b: Byte) | Escaped(b: Byte)

  predicate Balanced(x: Body) {
    match x
    case End => true
    case Skip(b, rest) => Inert(b) && Balanced(rest)
    case Text(pieces, rest) => PlainPieces(pieces) && Balanced(rest)
    case Group(inner, rest) => Balanced(inner) && Balanced(rest)
  }

  predicate PlainPieces(ps: seq<Piece>) {
    forall k | 0 <= k < |ps| && ps[k].Plain? :: ps[k].b != QUOTE && ps[k].b != BACKSLASH
  }

  function PiecesText(ps: seq<Piece>): seq<Byte> {
    if ps == [] then []
    else PieceText(ps[0]) + PiecesText(ps[1..])
  }

  function PieceText(p: Piece): seq<Byte> {
    if p.Plain? then [p.b] else [BACKSLASH, p.b]
  }

  function BodyText(x: Body): seq<Byte> {
    match x
    case End => []
    case Skip(b, rest) => [b] + BodyText(rest)
    case Text(pieces, rest) => [QUOTE] + PiecesText(pieces) + [QUOTE] + BodyText(rest)
    case Group(inner, rest) => [LBRACE] + BodyText(inner) + [RBRACE] + BodyText(rest)
  }

  ghost predicate IsSpan(t: seq<Byte>) {
    exists x :: Spans(x, t)
  }

  ghost predicate Spans(x: Body, t: seq<Byte>) {
    Balanced(x) && t == [LBRACE] + BodyText(x) + [RBRACE]
  }

  // ---------- every balanced span closes exactly at its end ----------

  // The scanner passes over t, at this depth and outside strings, unchanged.
  ghost predicate Transparent(t: seq<Byte>, depth: int) {
    forall q: seq<Byte> :: Passes(t, q, depth)
  }

  ghost predicate Passes(t: seq<Byte>, q: seq<Byte>, depth: int) {
    Close(t + q, Outside(depth)) == Shift(|t|, Close(q, Outside(depth)))
  }

  lemma CloseStep(c: Byte, t: seq<Byte>, st: Scan)
    ensures Close([c] + t, st) == if st.Closes(c) then Some(1) else Shift(1, Close(t, st.Step(c)))
  {
    assert ([c] + t)[1..] == t;
  }

  lemma TransparentNothing(depth: int)
    ensures Transparent([], depth)
  {
    forall q: seq<Byte>
      ensures Passes([], q, depth)
    {
      assert [] + q == q;
    }
  }

  lemma TransparentConcat(a: seq<Byte>, b: seq<Byte>, depth: int)
    requires Transparent(a, depth) && Transparent(b, depth)
    ensures Transparent(a + b, depth)
  {
    forall q: seq<Byte>
      ensures Passes(a + b, q, depth)
    {
      assert Passes(b, q, depth);
      assert Passes(a, b + q, depth);
      assert (a + b) + q == a + (b + q);
    }
  }

  predicate Inert(b: Byte) {
    b != QUOTE && b != LBRACE && b != RBRACE
  }

  lemma TransparentByte(b: Byte, depth: int)
    requires Inert(b)
    ensures Transparent([b], depth)
  {
    forall q: seq<Byte>
      ensures Passes([b], q, depth)
    {
      CloseStep(b, q, Outside(depth));
    }
  }

  lemma CloseSkipsGroup(t: seq<Byte>, q: seq<Byte>, depth: int)
    requires Transparent(t, depth + 1)
    ensures 1 <= depth ==>
        Close(([LBRACE] + t + [RBRACE]) + q, Outside(depth)) == Shift(|t| + 2, Close(q, Outside(depth)))
    ensures depth == 0 ==> Close(([LBRACE] + t + [RBRACE]) + q, Outside(depth)) == Some(|t| + 2)
  {
    hide Close;
    var tail := [RBRACE] + q;
    CloseStep(LBRACE, t + tail, Outside(depth));
    assert Passes(t, tail, depth + 1);
    CloseStep(RBRACE, q, Outside(depth + 1));
    assert ([LBRACE] + t + [RBRACE]) + q == [LBRACE] + (t + tail);
  }

  lemma TransparentGroup(t: seq<Byte>, depth: int)
    requires 1 <= depth && Transparent(t, depth + 1)
    ensures Transparent([LBRACE] + t + [RBRACE], depth)
  {
    forall q: seq<Byte>
      ensures Passes([LBRACE] + t + [RBRACE], q, depth)
    {
      CloseSkipsGroup(t, q, depth);
    }
  }

  lemma {:induction false} CloseSkipsPieces(ps: seq<Piece>, q: seq<Byte>, depth: int)
    requires PlainPieces(ps)
    ensures Close(PiecesText(ps) + ([QUOTE] + q), Scan(depth, true, false))
         == Shift(|PiecesText(ps)| + 1, Close(q, Outside(depth)))
  {
    if ps == [] {
      CloseStep(QUOTE, q, Scan(depth, true, false));
      assert [] + ([QUOTE] + q) == [QUOTE] + q;
    } else {
      CloseSkipsPieces(ps[1..], q, depth);
      CloseSkipsPiece(ps[0], PiecesText(ps[1..]) + ([QUOTE] + q), depth);
      assert PiecesText(ps) + ([QUOTE] + q) == PieceText(ps[0]) + (PiecesText(ps[1..]) + ([QUOTE] + q));
    }
  }

  lemma CloseSkipsPiece(p: Piece, t: seq<Byte>, depth: int)
    requires PlainPieces([p])
    ensures Close(PieceText(p) + t, Scan(depth, true, false))
        == Shift(|PieceText(p)|, Close(t, Scan(depth, true, false)))
  {
    assert p == [p][0];
    if p.Plain? {
      CloseStep(p.b, t, Scan(depth, true, false));
    } else {
      CloseStep(BACKSLASH, [p.b] + t, Scan(depth, true, false));
      CloseStep(p.b, t, Scan(depth, true, true));
      assert PieceText(p) + t == [BACKSLASH] + ([p.b] + t);
    }
  }

  lemma CloseSkipsText(pieces: seq<Piece>, q: seq<Byte>, depth: int)
    requires PlainPieces(pieces)
    ensures var t := PiecesText(pieces);
      Close(([QUOTE] + t + [QUOTE]) + q, Outside(depth)) == Shift(|t| + 2, Close(q, Outside(depth)))
  {
    var t, tail := PiecesText(pieces), [QUOTE] + q;
    CloseSkipsPieces(pieces, q, depth);
    CloseStep(QUOTE, t + tail, Outside(depth));
    assert ([QUOTE] + t + [QUOTE]) + q == [QUOTE] + (t + tail);
  }

  lemma TransparentText(pieces: seq<Piece>, depth: int)
    requires PlainPieces(pieces)
    ensures Transparent([QUOTE] + PiecesText(pieces) + [QUOTE], depth)
  {
    forall q: seq<Byte>
      ensures Passes([QUOTE] + PiecesText(pieces) + [QUOTE], q, depth)
    {
      CloseSkipsText(pieces, q, depth);
    }
  }

  lemma {:induction false} TransparentBody(x: Body, depth: int)
    requires Balanced(x) && 1 <= depth
    ensures Transparent(BodyText(x), depth)
  {
    match x {
      case End => TransparentNothing(depth);
      case Skip(b, rest) =>
        TransparentByte(b, depth);
        TransparentBody(rest, depth);
        TransparentConcat([b], BodyText(rest), depth);
      case Text(pieces, rest) =>
        TransparentText(pieces, depth);
        TransparentBody(rest, depth);
        TransparentConcat([QUOTE] + PiecesText(pieces) + [QUOTE], BodyText(rest), depth);
      case Group(inner, rest) =>
        TransparentBody(inner, depth + 1);
        TransparentGroup(BodyText(inner), depth);
        TransparentBody(rest, depth);
        TransparentConcat([LBRACE] + BodyText(inner) + [RBRACE], BodyText(rest), depth);
    }
  }

  lemma SpanCloses(span: seq<Byte>, q: seq<Byte>)
    requires IsSpan(span)
    ensures Close(span + q, Outside(0)) == Some(|span|)
  {
    var x :| Spans(x, span);
    TransparentBody(x, 1);
    CloseSkipsGroup(BodyText(x), q, 0);
  }

  // Spans are prefix-free: at most one starts at any place.
  lemma SpanIsUnique(s: seq<Byte>, m: nat, n: nat)
    requires m <= |s| && n <= |s| && IsSpan(s[..m]) && IsSpan(s[..n])
    ensures m == n
  {
    SpanCloses(s[..m], s[m..]);
    SpanCloses(s[..n], s[n..]);
    assert s == s[..m] + s[m..] == s[..n] + s[n..];
  }

  // ---------- whatever closes is a balanced span ----------

  lemma {:induction false} PiecesOf(t: seq<Byte>, depth: int) returns (ps: seq<Piece>, j: nat)
    requires Close(t, Scan(depth, true, false)).Some?
    ensures PlainPieces(ps) && j < |t| && t[..j] == PiecesText(ps) && t[j] == QUOTE
    ensures Close(t[j + 1..], Outside(depth)).Some?
    decreases |t|
  {
    if t[0] == QUOTE {
      ps, j := [], 0;
    } else {
      var k := if t[0] == BACKSLASH then 2 else 1;
      if k == 2 {
        assert Close(t[1..], Scan(depth, true, true)).Some?;
        assert t[1..][1..] == t[2..];
      }
      var more, i := PiecesOf(t[k..], depth);
      ps, j := [if k == 2 then Escaped(t[1]) else Plain(t[0])] + more, k + i;
      assert ps[1..] == more;
      assert t[..j] == t[..k] + t[k..][..i];
      assert t[j + 1..] == t[k..][i + 1..];
    }
  }

  // Balanced text at the start of t, up to the brace that leaves this depth.
  ghost predicate Found(t: seq<Byte>, x: Body, k: nat) {
    Balanced(x) && k < |t| && t[..k] == BodyText(x) && t[k] == RBRACE
  }

  lemma FoundLater(t: seq<Byte>, m: nat, y: Body, i: nat, x: Body)
    requires m <= |t| && Found(t[m..], y, i) && Balanced(x) && BodyText(x) == t[..m] + BodyText(y)
    ensures Found(t, x, m + i)
  {
    assert t[..m + i] == t[..m] + t[m..][..i];
  }

  // After the closing brace the scan goes on one level up.
  lemma CloseAfterFound(t: seq<Byte>, x: Body, k: nat, depth: int)
    requires 1 < depth && Found(t, x, k) && Close(t, Outside(depth)).Some?
    ensures Close(t[k + 1..], Outside(depth - 1)).Some?
  {
    TransparentBody(x, depth);
    assert Passes(BodyText(x), [RBRACE] + t[k + 1..], depth);
    CloseStep(RBRACE, t[k + 1..], Outside(depth));
    assert t == BodyText(x) + ([RBRACE] + t[k + 1..]);
  }

  lemma {:induction false} BodyOf(t: seq<Byte>, depth: int) returns (x: Body, k: nat)
    requires 1 <= depth && Close(t, Outside(depth)).Some?
    ensures Found(t, x, k)
    decreases |t|, 1
  {
    if t[0] == RBRACE {
      x, k := End, 0;
    } else if t[0] == QUOTE {
      x, k := BodyOfText(t, depth);
    } else if t[0] == LBRACE {
      x, k := BodyOfGroup(t, depth);
    } else {
      var rest, i := BodyOf(t[1..], depth);
      x, k := Skip(t[0], rest), 1 + i;
      FoundLater(t, 1, rest, i, x);
    }
  }

  lemma {:induction false} BodyOfText(t: seq<Byte>, depth: int) returns (x: Body, k: nat)
    requires 1 <= depth && Close(t, Outside(depth)).Some? && t[0] == QUOTE
    ensures Found(t, x, k)
    decreases |t|, 0
  {
    var ps, j := PiecesOf(t[1..], depth);
    assert t[1..][j + 1..] == t[j + 2..];
    var rest, i := BodyOf(t[j + 2..], depth);
    x, k := Text(ps, rest), j + 2 + i;
    assert t[..j + 2] == [QUOTE] + t[1..][..j] + [QUOTE];
    FoundLater(t, j + 2, rest, i, x);
  }

  lemma {:induction false} BodyOfGroup(t: seq<Byte>, depth: int) returns (x: Body, k: nat)
    requires 1 <= depth && Close(t, Outside(depth)).Some? && t[0] == LBRACE
    ensures Found(t, x, k)
    decreases |t|, 0
  {
    var inner, j := BodyOf(t[1..], depth + 1);
    CloseAfterFound(t[1..], inner, j, depth + 1);
    assert t[1..][j + 1..] == t[j + 2..];
    var rest, i := BodyOf(t[j + 2..], depth);
    x, k := Group(inner, rest), j + 2 + i;
    assert t[..j + 2] == [LBRACE] + t[1..][..j] + [RBRACE];
    FoundLater(t, j + 2, rest, i, x);
  }

  lemma ClosesAtSpan(t: seq<Byte>)
    requires t != [] && t[0] == LBRACE && Close(t, Outside(0)).Some?
    ensures IsSpan(t[..Close(t, Outside(0)).value])
  {
    var x, k := BodyOf(t[1..], 1);
    assert t[..k + 2] == [LBRACE] + t[1..][..k] + [RBRACE];
    assert Spans(x, t[..k + 2]);
    SpanCloses(t[..k + 2], t[k + 2..]);
    assert t == t[..k + 2] + t[k + 2..];
  }

  // ---------- the scanner ----------

  method IndexOf(s: seq<Byte>, c: Byte) returns (k: int)
    ensures k == -1 ==> c !in s
    ensures k != -1 ==> 0 <= k < |s| && s[k] == c && c !in s[..k]
  {
    for i := 0 to |s|
      invariant c !in s[..i]
    {
      if s[i] == c {
        return i;
      }
    }
    k := -1;
  }

  // The cut is a balanced span that starts at the first brace of s, and there
  // is none exactly if s has no such span.
  ghost predicate Cuts(s: seq<Byte>, cut: Option<(nat, nat)>) {
    match cut
    case Some((i, j)) => i <= j <= |s| && LBRACE !in s[..i] && IsSpan(s[i..j])
    case None => forall i, j | 0 <= i <= j <= |s| && LBRACE !in s[..i] :: !IsSpan(s[i..j])
  }

  // There is only one such span, so none that is shorter.
  lemma CutIsUnique(s: seq<Byte>, cut: Option<(nat, nat)>, i: nat, j: nat)
    requires Cuts(s, cut) && i <= j <= |s| && LBRACE !in s[..i] && IsSpan(s[i..j])
    ensures cut == Some((i, j))
  {
    var (a, b) := cut.value;
    SpanInText(s, a, b);
    SpanInText(s, i, j);
    InPrefixUnlessEqual(s, i, a);
    assert s[i..][..j - i] == s[i..j] && s[i..][..b - i] == s[i..b];
    SpanIsUnique(s[i..], j - i, b - i);
  }

  lemma CutFound(s: seq<Byte>, start: nat, end: nat)
    requires start < end <= |s| && LBRACE !in s[..start] && s[start] == LBRACE
    requires Close(s[start..], Outside(0)) == Some(end - start)
    ensures Cuts(s, Some((start, end)))
  {
    ClosesAtSpan(s[start..]);
    assert s[start..][..end - start] == s[start..end];
  }

  method FindObject(s: seq<Byte>) returns (cut: Option<(nat, nat)>)
    ensures Cuts(s, cut)
  {
    var start: int := IndexOf(s, LBRACE);
    hide Cuts;
    if start < 0 {
      NoSpanWithoutBrace(s);
      return None;
    }
    var end, depth, inString, escape := -1, 0, false, false;
    var i: nat := start;
    while i < |s|
      invariant start <= i <= |s| && end == -1
      invariant Close(s[start..], Outside(0)) == Shift(i - start, Close(s[i..], Scan(depth, inString, escape)))
    {
      var c := s[i];
      assert s[i..][1..] == s[i + 1..];
      i := i + 1;
      if escape {
        escape := false;
        continue;
      }
      if c == BACKSLASH && inString {
        escape := true;
        continue;
      }
      if c == QUOTE {
        inString := !inString;
        continue;
      }
      if inString {
        continue;
      }
      if c == LBRACE {
        depth := depth + 1;
      } else if c == RBRACE {
        depth := depth - 1;
        if depth == 0 {
          end := i - 1;
          break;
        }
      }
    }
    if end < 0 {
      NoSpanUnlessCloses(s, start);
      return None;
    }
    CutFound(s, start, end + 1);
    cut := Some((start, end + 1));
  }

  lemma SpanInText(s: seq<Byte>, i: nat, j: nat)
    requires i <= j <= |s| && IsSpan(s[i..j])
    ensures i < j && s[i] == LBRACE && Close(s[i..], Outside(0)).Some?
  {
    var x :| Spans(x, s[i..j]);
    assert s[i..j][0] == s[i];
    SpanCloses(s[i..j], s[j..]);
    assert s[i..j] + s[j..] == s[i..];
  }

  lemma InPrefixUnlessEqual(s: seq<Byte>, i: nat, k: nat)
    requires i < |s| && k < |s|
    ensures i == k || s[i] in s[..k] || s[k] in s[..i]
  {
    if i < k {
      assert s[..k][i] == s[i];
    } else if k < i {
      assert s[..i][k] == s[k];
    }
  }

  lemma NoSpanWithoutBrace(s: seq<Byte>)
    requires LBRACE !in s
    ensures Cuts(s, None)
  {
    forall i, j | 0 <= i <= j <= |s|
      ensures !IsSpan(s[i..j])
    {
      if IsSpan(s[i..j]) {
        SpanInText(s, i, j);
      }
    }
  }

  lemma NoSpanUnlessCloses(s: seq<Byte>, start: nat)
    requires start < |s| && LBRACE !in s[..start] && s[start] == LBRACE && Close(s[start..], Outside(0)).None?
    ensures Cuts(s, None)
  {
    forall i, j | 0 <= i <= j <= |s| && LBRACE !in s[..i]
      ensures !IsSpan(s[i..j])
    {
      if i < |s| {
        InPrefixUnlessEqual(s, i, start);
      }
      if IsSpan(s[i..j]) {
        SpanInText(s, i, j);
      }
    }
  }

  // ---------- JSON objects ----------

  predicate AllInert(t: seq<Byte>) {
    forall k | 0 <= k < |t| :: Inert(t[k])
  }

  lemma {:induction false} TransparentBytes(t: seq<Byte>, depth: int)
    requires AllInert(t)
    ensures Transparent(t, depth)
  {
    if t == [] {
      TransparentNothing(depth);
    } else {
      TransparentByte(t[0], depth);
      TransparentBytes(t[1..], depth);
      TransparentConcat([t[0]], t[1..], depth);
      assert [t[0]] + t[1..] == t;
    }
  }

  function AsPlain(t: seq<Byte>): (ps: seq<Piece>)
    ensures |ps| == |t| && forall k | 0 <= k < |t| :: ps[k] == Plain(t[k])
  {
    if t == [] then [] else [Plain(t[0])] + AsPlain(t[1..])
  }

  function CharPieces(c: JsonChar): seq<Piece> {
    match c
    case Unescaped(b) => [Plain(b)]
    case Escape(b) => [Escaped(b)]
    case Unicode(hex) => [Escaped(0x75)] + AsPlain(hex)
  }

  lemma {:induction false} AsPlainText(t: seq<Byte>)
    ensures PiecesText(AsPlain(t)) == t
  {
    if t != [] {
      AsPlainText(t[1..]);
      assert AsPlain(t)[1..] == AsPlain(t[1..]);
    }
  }

  lemma {:induction false} PiecesTextConcat(a: seq<Piece>, b: seq<Piece>)
    ensures PiecesText(a + b) == PiecesText(a) + PiecesText(b)
  {
    hide PieceText;
    if a == [] {
      assert a + b == b;
    } else {
      PiecesTextConcat(a[1..], b);
      assert (a + b)[1..] == a[1..] + b;
      Associative(PieceText(a[0]), PiecesText(a[1..]), PiecesText(b));
    }
  }

  lemma PrintedChar(c: JsonChar)
    requires c.Valid()
    ensures PiecesText(CharPieces(c)) == c.Print() && PlainPieces(CharPieces(c))
  {
    match c {
      case Unescaped(b) => assert CharPieces(c)[1..] == [];
      case Escape(b) => assert CharPieces(c)[1..] == [];
      case Unicode(hex) =>
        AsPlainText(hex);
        assert CharPieces(c)[1..] == AsPlain(hex);
        assert PiecesText(CharPieces(c)) == [BACKSLASH, 0x75] + hex;
    }
  }

  lemma {:induction false} PrintedChars(s: seq<JsonChar>) returns (ps: seq<Piece>)
    requires ValidString(s)
    ensures PlainPieces(ps) && PiecesText(ps) == PrintChars(s)
  {
    if s == [] {
      ps := [];
    } else {
      var more := PrintedChars(s[1..]);
      PrintedChar(s[0]);
      PiecesTextConcat(CharPieces(s[0]), more);
      ps := CharPieces(s[0]) + more;
    }
  }

  lemma TransparentString(s: seq<JsonChar>, depth: int)
    requires ValidString(s)
    ensures Transparent(PrintString(s), depth)
  {
    var ps := PrintedChars(s);
    TransparentText(ps, depth);
  }

  lemma Transparent3(a: seq<Byte>, b: seq<Byte>, c: seq<Byte>, depth: int)
    requires Transparent(a, depth) && Transparent(b, depth) && Transparent(c, depth)
    ensures Transparent(a + b + c, depth)
  {
    hide Transparent;
    TransparentConcat(a, b, depth);
    TransparentConcat(a + b, c, depth);
  }

  lemma {:induction false} TransparentJson(j: Json, depth: int)
    requires Valid(j) && 1 <= depth
    ensures Transparent(Print(j), depth)
    decreases j
  {
    match j {
      case True => TransparentBytes(Print(j), depth);
      case False => TransparentBytes(Print(j), depth);
      case Null => TransparentBytes(Print(j), depth);
      case Number(text) => TransparentBytes(text, depth);
      case Str(chars) => TransparentString(chars, depth);
      case Arr(open, es) =>
        TransparentElements(es, depth);
        TransparentArray(open, PrintElements(es), depth);
      case Obj(open, ms) =>
        TransparentMembers(ms, depth + 1);
        TransparentObject(open, PrintMembers(ms), depth);
    }
  }

  lemma TransparentArray(open: Ws, t: seq<Byte>, depth: int)
    requires Transparent(t, depth)
    ensures Transparent([LBRACKET] + open + t + [RBRACKET], depth)
  {
    hide Transparent;
    TransparentBytes([LBRACKET] + open, depth);
    TransparentByte(RBRACKET, depth);
    Transparent3([LBRACKET] + open, t, [RBRACKET], depth);
  }

  lemma TransparentObject(open: Ws, t: seq<Byte>, depth: int)
    requires 1 <= depth && Transparent(t, depth + 1)
    ensures Transparent([LBRACE] + open + t + [RBRACE], depth)
  {
    hide Transparent;
    TransparentBytes(open, depth + 1);
    TransparentConcat(open, t, depth + 1);
    TransparentGroup(open + t, depth);
    assert [LBRACE] + open + t + [RBRACE] == [LBRACE] + (open + t) + [RBRACE];
  }

  lemma {:induction false} TransparentElements(es: Elements, depth: int)
    requires ValidElements(es) && 1 <= depth
    ensures Transparent(PrintElements(es), depth)
    decreases es
  {
    hide Transparent, Print;
    match es {
      case NoElement => TransparentNothing(depth);
      case Element(v, after, more, before) =>
        var middle := after + (if more.NoElement? then [] else [COMMA] + before);
        TransparentJson(v, depth);
        TransparentBytes(middle, depth);
        TransparentElements(more, depth);
        Transparent3(Print(v), middle, PrintElements(more), depth);
        assert PrintElements(es) == Print(v) + middle + PrintElements(more);
    }
  }

  lemma Regroup<T>(a: seq<T>, b: seq<T>, c: seq<T>, d: seq<T>, e: seq<T>, f: seq<T>, g: seq<T>, h: seq<T>)
    ensures a + b + c + d + e + f + g + h == (a + (b + c + d) + e) + (f + g) + h
  {
    assert a + (b + c + d) == a + b + c + d;
    var p := a + b + c + d + e;
    assert p + (f + g) == p + f + g;
  }

  lemma {:induction false} TransparentMembers(ms: Members, depth: int)
    requires ValidMembers(ms) && 1 <= depth
    ensures Transparent(PrintMembers(ms), depth)
    decreases ms
  {
    hide Transparent, Print, PrintString;
    match ms {
      case NoMember => TransparentNothing(depth);
      case Member(key, afterKey, beforeValue, v, after, more, before) =>
        var colon := afterKey + [COLON] + beforeValue;
        var comma := after + (if more.NoMember? then [] else [COMMA] + before);
        TransparentString(key, depth);
        TransparentBytes(colon, depth);
        TransparentJson(v, depth);
        TransparentBytes(comma, depth);
        TransparentMembers(more, depth);
        Transparent3(PrintString(key), colon, Print(v), depth);
        Transparent3(PrintString(key) + colon + Print(v), comma, PrintMembers(more), depth);
        Regroup(PrintString(key), afterKey, [COLON], beforeValue, Print(v), after,
                if more.NoMember? then [] else [COMMA] + before, PrintMembers(more));
    }
  }

  lemma ObjectText(open: Ws, ms: Members)
    ensures Print(Obj(open, ms)) == [LBRACE] + (open + PrintMembers(ms)) + [RBRACE]
  {
    hide PrintMembers;
    assert [LBRACE] + (open + PrintMembers(ms)) == [LBRACE] + open + PrintMembers(ms);
  }

  lemma ObjectIsSpan(open: Ws, ms: Members)
    requires ValidMembers(ms)
    ensures IsSpan(Print(Obj(open, ms)))
  {
    hide Transparent, Print, PrintMembers, ValidMembers;
    var body := open + PrintMembers(ms);
    TransparentBytes(open, 1);
    TransparentMembers(ms, 1);
    TransparentConcat(open, PrintMembers(ms), 1);
    GroupIsSpan(body);
    ObjectText(open, ms);
  }

  lemma GroupIsSpan(body: seq<Byte>)
    requires Transparent(body, 1)
    ensures IsSpan([LBRACE] + body + [RBRACE])
  {
    var t := [LBRACE] + body + [RBRACE];
    CloseSkipsGroup(body, [], 0);
    assert t + [] == t;
    ClosesAtSpan(t);
    assert t[..|t|] == t;
  }

  // Extraction undoes printing: out of prose with no brace before it and
  // anything after it, exactly the printed object is cut.
  lemma ExtractionUndoesPrinting(before: seq<Byte>, open: Ws, ms: Members, after: seq<Byte>, cut: Option<(nat, nat)>)
    requires ValidMembers(ms) && LBRACE !in before
    requires Cuts(before + Print(Obj(open, ms)) + after, cut)
    ensures var s := before + Print(Obj(open, ms)) + after;
      && cut == Some((|before|, |before| + |Print(Obj(open, ms))|))
      && s[cut.value.0..cut.value.1] == Print(Obj(open, ms))
  {
    var text := Print(Obj(open, ms));
    var s := before + text + after;
    ObjectIsSpan(open, ms);
    assert s[..|before|] == before;
    assert s[|before|..|before| + |text|] == text;
    CutIsUnique(s, cut, |before|, |before| + |text|);
  }

  // The whole of parseTaskResult, over any decoder of a single JSON text.
  method ParseTaskResult<R(!new)>(raw: seq<Byte>, unmarshal: seq<Byte> -> Option<R>) returns (r: Option<R>)
    ensures raw == [] ==> r == None
    ensures raw != [] && unmarshal(raw).Some? ==> r == unmarshal(raw)
    ensures raw != [] && unmarshal(raw).None? ==>
      exists cut :: Cuts(raw, cut) && r == if cut.Some? then unmarshal(raw[cut.value.0..cut.value.1]) else None
  {
    if |raw| == 0 {
      return None;
    }
    r := unmarshal(raw);
    if r.Some? {
      return;
    }
    var cut := FindObject(raw);
    if cut.Some? {
      r := unmarshal(raw[cut.value.0..cut.value.1]);
    }
  }
}
