/** What parsing a query gives for text that nobody printed: lower-case escapes, stray percent signs, pieces without '='. */
module QueryReading {
  import opened Base
  import opened Strings
  import opened QueryForm

  // ---------------------------------------------------------------- how bytes may be spelled

  const LOWER := "0123456789abcdef"
  const UPPER := "0123456789ABCDEF"

  /** Hexadecimal digit c has the value n, in either case. */
  predicate Spells(c: char, n: nat) {
    n < 16 && (c == LOWER[n] || c == UPPER[n])
  }

  predicate IsHex(c: char) {
    exists n | 0 <= n < 16 :: Spells(c, n)
  }

  /** A byte that stands for itself, a plus, or a percent sign and two digits. */
  datatype Mark = Plain(c: Byte) | Plus | Escape(x: Byte, y: Byte)

  function Spell(marks: seq<Mark>): Text {
    if marks == [] then []
    else (match marks[0] case Plain(c) => [c] case Plus => ['+'] case Escape(x, y) => ['%', x, y]) + Spell(marks[1..])
  }

  /** The mark stands for the byte b. */
  predicate Reads(mark: Mark, b: Byte) {
    match mark
    case Plain(c) => b == c
    case Plus => b == ' '
    case Escape(x, y) => Spells(x, b as int / 16) && Spells(y, b as int % 16)
  }

  predicate TwoDigits(s: Text) {
    |s| >= 2 && IsHex(s[0]) && IsHex(s[1])
  }

  /** The marks are what a reader finds: a percent sign stands for itself only when no two digits follow. */
  predicate Proper(marks: seq<Mark>) {
    marks == []
    || ((match marks[0]
         case Plain(c) => c != '+' && (c == '%' ==> !TwoDigits(Spell(marks[1..])))
         case Plus => true
         case Escape(x, y) => IsHex(x) && IsHex(y))
        && Proper(marks[1..]))
  }

  predicate ReadAs(marks: seq<Mark>, t: Text) {
    |marks| == |t| && forall i | 0 <= i < |marks| :: Reads(marks[i], t[i])
  }

  lemma DigitValue(c: char, n: nat)
    requires n < 16
    ensures Spells(c, n) <==> HexValue(c) == Some(n)
  {
    if n < 10 {
      assert LOWER[n] == UPPER[n] == (48 + n) as char;
    } else {
      assert LOWER[n] == (87 + n) as char && UPPER[n] == (55 + n) as char;
    }
  }

  lemma HexHasValue(c: char)
    ensures IsHex(c) <==> HexValue(c).Some?
    ensures HexValue(c).Some? ==> HexValue(c).value < 16
  {
    if HexValue(c).Some? {
      DigitValue(c, HexValue(c).value);
    }
    if IsHex(c) {
      var n :| 0 <= n < 16 && Spells(c, n);
      DigitValue(c, n);
    }
  }

  // ---------------------------------------------------------------- decoding

  function Decode(s: Text): Text {
    Unquote(PlusToSpace(s))
  }

  lemma DigitSpaced(c: char, d: char)
    requires d == if c == '+' then ' ' else c
    ensures IsHex(c) <==> HexValue(d).Some?
  {
    HexHasValue(c);
  }

  lemma SpacedDigits(s: Text, r: Text)
    requires |r| == |s| && forall i | 0 <= i < |s| :: r[i] == if s[i] == '+' then ' ' else s[i]
    ensures TwoDigits(s) <==> |s| >= 2 && HexValue(r[0]).Some? && HexValue(r[1]).Some?
  {
    if |s| >= 2 {
      DigitSpaced(s[0], r[0]);
      DigitSpaced(s[1], r[1]);
    }
  }

  lemma PlainIsDecoded(c: Byte, rest: Text)
    requires c != '+' && (c == '%' ==> !TwoDigits(rest))
    ensures Decode([c] + rest) == [c] + Decode(rest)
  {
    SpacedDigits(rest, PlusToSpace(rest));
    PlusToSpaceConcat([c], rest);
    assert PlusToSpace([c]) == [c];
    assert ([c] + PlusToSpace(rest))[1..] == PlusToSpace(rest);
  }

  lemma PlusIsDecoded(rest: Text)
    ensures Decode(['+'] + rest) == [' '] + Decode(rest)
  {
    PlusToSpaceConcat(['+'], rest);
    assert PlusToSpace(['+']) == [' '];
    assert ([' '] + PlusToSpace(rest))[1..] == PlusToSpace(rest);
  }

  lemma EscapeIsPlain(d: Text)
    requires |d| == 3 && IsEscape(d)
    ensures PlusToSpace(d) == d && '&' !in d && '=' !in d
  {
    assert forall i | 0 <= i < 3 :: d[i] != '+' && d[i] != '&' && d[i] != '=';
  }

  lemma EscapeAtHead(a: Text, tail: Text)
    requires IsEscape(a)
    ensures Unquote(a + tail) == [EscapedByte(a)] + Unquote(a[3..] + tail)
  {
    assert (a + tail)[3..] == a[3..] + tail;
  }

  lemma EscapeValue(e: Text, b: Byte)
    requires |e| == 3 && e[0] == '%' && Spells(e[1], b as int / 16) && Spells(e[2], b as int % 16)
    ensures IsEscape(e) && EscapedByte(e) == b
  {
    DigitValue(e[1], b as int / 16);
    DigitValue(e[2], b as int % 16);
    assert 16 * (b as int / 16) + b as int % 16 == b as int;
  }

  lemma EscapeIsDecoded(e: Text, b: Byte, rest: Text)
    requires |e| == 3 && e[0] == '%' && Spells(e[1], b as int / 16) && Spells(e[2], b as int % 16)
    ensures Decode(e + rest) == [b] + Decode(rest)
  {
    EscapeValue(e, b);
    EscapeIsPlain(e);
    PlusToSpaceConcat(e, rest);
    EscapeAtHead(e, PlusToSpace(rest));
    assert e[3..] + PlusToSpace(rest) == PlusToSpace(rest);
  }

  /** Decoding gives the bytes that the marks of a text stand for. */
  lemma {:induction false} DecodedAsRead(marks: seq<Mark>, t: Text)
    requires Proper(marks) && ReadAs(marks, t)
    ensures Decode(Spell(marks)) == t
  {
    if marks != [] {
      assert Reads(marks[0], t[0]);
      var rest := Spell(marks[1..]);
      DecodedAsRead(marks[1..], t[1..]);
      match marks[0]
      case Plain(c) => PlainIsDecoded(c, rest);
      case Plus => PlusIsDecoded(rest);
      case Escape(x, y) => EscapeIsDecoded(['%', x, y], t[0], rest);
    }
  }

  lemma DigitsOfByte(x: Byte, y: Byte) returns (b: Byte)
    requires IsHex(x) && IsHex(y)
    ensures Spells(x, b as int / 16) && Spells(y, b as int % 16)
  {
    HexHasValue(x);
    HexHasValue(y);
    var hi, lo := HexValue(x).value, HexValue(y).value;
    DigitValue(x, hi);
    DigitValue(y, lo);
    assert (16 * hi + lo) / 16 == hi && (16 * hi + lo) % 16 == lo;
    b := (16 * hi + lo) as char;
  }

  lemma OneMoreMark(mark: Mark, marks: seq<Mark>, b: Byte, t: Text, piece: Text)
    requires Proper(marks) && ReadAs(marks, t) && Reads(mark, b)
    requires piece == match mark case Plain(c) => [c] case Plus => ['+'] case Escape(x, y) => ['%', x, y]
    requires mark.Plain? ==> mark.c != '+' && (mark.c == '%' ==> !TwoDigits(Spell(marks)))
    requires mark.Escape? ==> IsHex(mark.x) && IsHex(mark.y)
    ensures Proper([mark] + marks) && ReadAs([mark] + marks, [b] + t) && Spell([mark] + marks) == piece + Spell(marks)
  {
    assert ([mark] + marks)[1..] == marks;
  }

  /** Every text is spelled by such marks, so DecodedAsRead says what any text decodes to. */
  lemma {:induction false} EveryTextIsRead(s: Text) returns (marks: seq<Mark>, t: Text)
    ensures Spell(marks) == s && Proper(marks) && ReadAs(marks, t)
    decreases |s|
  {
    if s == [] {
      marks, t := [], [];
    } else if s[0] == '%' && TwoDigits(s[1..]) {
      var b := DigitsOfByte(s[1], s[2]);
      marks, t := EveryTextIsRead(s[3..]);
      OneMoreMark(Escape(s[1], s[2]), marks, b, t, s[..3]);
      marks, t := [Escape(s[1], s[2])] + marks, [b] + t;
      assert s == s[..3] + s[3..];
    } else {
      var mark := if s[0] == '+' then Plus else Plain(s[0]);
      var b: Byte := if s[0] == '+' then ' ' else s[0];
      marks, t := EveryTextIsRead(s[1..]);
      OneMoreMark(mark, marks, b, t, [s[0]]);
      marks, t := [mark] + marks, [b] + t;
      assert s == [s[0]] + s[1..];
    }
  }

  // ---------------------------------------------------------------- pieces

  lemma FindFirst(s: Text, c: Byte) returns (i: nat)
    requires c in s
    ensures i < |s| && s[i] == c && c !in s[..i]
    ensures s == s[..i] + [c] + s[i + 1..]
  {
    i := 0;
    while s[i] != c
      invariant i < |s| && c !in s[..i] && c in s[i..]
      decreases |s| - i
    {
      assert s[..i + 1] == s[..i] + [s[i]];
      i := i + 1;
    }
  }

  lemma {:induction false} SplitJoined(a: Text, b: Text)
    ensures SplitOn<Byte>(a + ['&'] + b, '&') == SplitOn<Byte>(a, '&') + SplitOn<Byte>(b, '&')
    decreases |a|
  {
    if '&' in a {
      var i := FindFirst(a, '&');
      SplitJoined(a[i + 1..], b);
      SplitStep(a[..i], a[i + 1..], b);
    } else {
      SplitPlain<Byte>(a, '&');
      SplitFirst<Byte>(a, b, '&');
    }
  }

  lemma SplitStep(x: Text, rest: Text, b: Text)
    requires '&' !in x
    requires SplitOn<Byte>(rest + ['&'] + b, '&') == SplitOn<Byte>(rest, '&') + SplitOn<Byte>(b, '&')
    ensures SplitOn<Byte>(x + ['&'] + rest + ['&'] + b, '&')
            == SplitOn<Byte>(x + ['&'] + rest, '&') + SplitOn<Byte>(b, '&')
  {
    SplitFirst<Byte>(x, rest, '&');
    SplitFirst<Byte>(x, rest + ['&'] + b, '&');
    Regrouped(x, rest, ['&'], b, '&');
  }

  function OfPiece(piece: Text, repair: Text -> Text): seq<Param> {
    if piece == [] then [] else [ParsePiece(piece, repair)]
  }

  lemma PiecesCons(x: Text, rest: seq<Text>, repair: Text -> Text)
    ensures ParsePieces([x] + rest, repair) == OfPiece(x, repair) + ParsePieces(rest, repair)
  {
    assert ([x] + rest)[1..] == rest;
  }

  lemma {:induction false} PiecesJoined(p: seq<Text>, q: seq<Text>, repair: Text -> Text)
    ensures ParsePieces(p + q, repair) == ParsePieces(p, repair) + ParsePieces(q, repair)
  {
    if p == [] {
      assert p + q == q;
    } else {
      PiecesJoined(p[1..], q, repair);
      PiecesStep(p[0], p[1..], q, repair);
      assert p == [p[0]] + p[1..];
    }
  }

  lemma PiecesStep(x: Text, rest: seq<Text>, q: seq<Text>, repair: Text -> Text)
    requires ParsePieces(rest + q, repair) == ParsePieces(rest, repair) + ParsePieces(q, repair)
    ensures ParsePieces([x] + rest + q, repair) == ParsePieces([x] + rest, repair) + ParsePieces(q, repair)
  {
    assert [x] + rest + q == [x] + (rest + q);
    PiecesCons(x, rest + q, repair);
    PiecesCons(x, rest, repair);
    Associative(OfPiece(x, repair), ParsePieces(rest, repair), ParsePieces(q, repair));
  }

  lemma Associative(a: seq<Param>, b: seq<Param>, c: seq<Param>)
    ensures a + (b + c) == (a + b) + c
  {
  }

  /** The parameters on the two sides of an ampersand follow each other, and nothing gives none. */
  lemma ParseJoined(a: Text, b: Text, repair: Text -> Text)
    ensures Parse(a + ['&'] + b, repair) == Parse(a, repair) + Parse(b, repair)
    ensures Parse([], repair) == []
  {
    SplitJoined(a, b);
    PiecesJoined(SplitOn<Byte>(a, '&'), SplitOn<Byte>(b, '&'), repair);
    var blank: seq<Text> := [[]];
    assert blank[1..] == [];
  }

  lemma {:induction false} CutPlain(s: Text)
    requires '=' !in s
    ensures Cut(s) == (s, [])
  {
    if s != [] {
      CutPlain(s[1..]);
      assert s == [s[0]] + s[1..];
    }
  }

  lemma ParseSingle(piece: Text, repair: Text -> Text)
    requires '&' !in piece && piece != []
    ensures Parse(piece, repair) == [ParsePiece(piece, repair)]
  {
    SplitPlain<Byte>(piece, '&');
    SinglePiece(piece, repair);
  }

  /** A piece gives one parameter: what its two sides read as. The value may hold further equals signs; without one the
      name is the whole piece and the value blank. */
  lemma ParsedAsRead(name: seq<Mark>, value: seq<Mark>, k: Text, v: Text, repair: Text -> Text)
    requires Proper(name) && Proper(value) && ReadAs(name, k) && ReadAs(value, v)
    requires '&' !in Spell(name) && '&' !in Spell(value) && '=' !in Spell(name)
    ensures Parse(Spell(name) + ['='] + Spell(value), repair) == [(repair(k), repair(v))]
    ensures name != [] ==> Parse(Spell(name), repair) == [(repair(k), repair([]))]
  {
    DecodedAsRead(name, k);
    DecodedAsRead(value, v);
    CutAtFirst(Spell(name), Spell(value));
    ParseSingle(Spell(name) + ['='] + Spell(value), repair);
    if name != [] {
      CutPlain(Spell(name));
      ParseSingle(Spell(name), repair);
    }
  }

  // ---------------------------------------------------------------- the case of an escape

  predicate SameDigit(c: char, d: char) {
    exists n | 0 <= n < 16 :: Spells(c, n) && Spells(d, n)
  }

  lemma SameDigitValue(c: char, d: char)
    requires SameDigit(c, d)
    ensures HexValue(c).Some? && HexValue(c) == HexValue(d)
  {
    var n :| 0 <= n < 16 && Spells(c, n) && Spells(d, n);
    DigitValue(c, n);
    DigitValue(d, n);
  }

  /** Two escapes of one byte. */
  predicate SameEscape(d: Text, e: Text) {
    |d| == 3 && |e| == 3 && d[0] == '%' && e[0] == '%' && SameDigit(d[1], e[1]) && SameDigit(d[2], e[2])
  }

  lemma SameEscapeFacts(d: Text, e: Text)
    requires SameEscape(d, e)
    ensures IsEscape(d) && IsEscape(e) && EscapedByte(d) == EscapedByte(e)
    ensures PlusToSpace(d) == d && PlusToSpace(e) == e
    ensures '&' !in d && '&' !in e && '=' !in d && '=' !in e
  {
    SameDigitValue(d[1], e[1]);
    SameDigitValue(d[2], e[2]);
    EscapeIsPlain(d);
    EscapeIsPlain(e);
  }

  lemma ByteAtHead(a: Text, tail: Text)
    requires a != [] && !IsEscape(a + tail)
    ensures Unquote(a + tail) == [a[0]] + Unquote(a[1..] + tail)
  {
    assert (a + tail)[1..] == a[1..] + tail;
  }

  lemma {:induction false} UnquoteInside(a: Text, d: Text, e: Text, b: Text)
    requires |d| == 3 && |e| == 3 && IsEscape(d) && IsEscape(e) && EscapedByte(d) == EscapedByte(e)
    ensures Unquote(a + (d + b)) == Unquote(a + (e + b))
    decreases |a|
  {
    if a == [] {
      EscapeAtHead(d, b);
      EscapeAtHead(e, b);
      assert d[3..] + b == b && e[3..] + b == b && a + (d + b) == d + b && a + (e + b) == e + b;
    } else if IsEscape(a) {
      UnquoteInside(a[3..], d, e, b);
      EscapeAtHead(a, d + b);
      EscapeAtHead(a, e + b);
    } else {
      NoEscapeAcross(a, d + b);
      NoEscapeAcross(a, e + b);
      UnquoteInside(a[1..], d, e, b);
      ByteAtHead(a, d + b);
      ByteAtHead(a, e + b);
    }
  }

  /** An escape does not reach into another one. */
  lemma NoEscapeAcross(a: Text, tail: Text)
    requires a != [] && !IsEscape(a) && tail != [] && tail[0] == '%'
    ensures !IsEscape(a + tail)
  {
    if |a| < 3 {
      assert (a + tail)[|a|] == '%';
    }
  }

  lemma DecodeInside(a: Text, d: Text, e: Text, b: Text)
    requires SameEscape(d, e)
    ensures Decode(a + d + b) == Decode(a + e + b)
  {
    SameEscapeFacts(d, e);
    SpacedInside(a, d, b);
    SpacedInside(a, e, b);
    UnquoteInside(PlusToSpace(a), d, e, PlusToSpace(b));
  }

  lemma SpacedInside(a: Text, d: Text, b: Text)
    requires PlusToSpace(d) == d
    ensures PlusToSpace(a + d + b) == PlusToSpace(a) + (d + PlusToSpace(b))
  {
    TextAssociative(a, d, b);
    PlusToSpaceConcat(a, d + b);
    PlusToSpaceConcat(d, b);
  }

  lemma TextAssociative(a: Text, b: Text, c: Text)
    ensures a + b + c == a + (b + c)
  {
  }

  lemma CutInName(a: Text, d: Text, e: Text, b: Text, i: nat, repair: Text -> Text)
    requires SameEscape(d, e) && i < |a| && a == a[..i] + ['='] + a[i + 1..] && '=' !in a[..i]
    ensures ParsePiece(a + d + b, repair) == ParsePiece(a + e + b, repair)
  {
    var k, w := a[..i], a[i + 1..];
    Regrouped(k, w, d, b, '=');
    Regrouped(k, w, e, b, '=');
    CutAtFirst(k, w + d + b);
    CutAtFirst(k, w + e + b);
    DecodeInside(w, d, e, b);
  }

  lemma Regrouped(k: Text, w: Text, d: Text, b: Text, c: Byte)
    ensures k + [c] + w + d + b == k + [c] + (w + d + b)
  {
  }

  lemma RegroupedBehind(a: Text, d: Text, w: Text, v: Text, c: Byte)
    ensures a + d + (w + [c] + v) == (a + d + w) + [c] + v
  {
  }

  lemma CutInValue(a: Text, d: Text, e: Text, b: Text, i: nat, repair: Text -> Text)
    requires SameEscape(d, e) && '=' !in a && i < |b| && b == b[..i] + ['='] + b[i + 1..] && '=' !in b[..i]
    ensures ParsePiece(a + d + b, repair) == ParsePiece(a + e + b, repair)
  {
    var w, v := b[..i], b[i + 1..];
    SameEscapeFacts(d, e);
    RegroupedBehind(a, d, w, v, '=');
    RegroupedBehind(a, e, w, v, '=');
    CutAtFirst(a + d + w, v);
    CutAtFirst(a + e + w, v);
    DecodeInside(a, d, e, w);
  }

  lemma CutInside(a: Text, d: Text, e: Text, b: Text, repair: Text -> Text)
    requires SameEscape(d, e)
    ensures ParsePiece(a + d + b, repair) == ParsePiece(a + e + b, repair)
  {
    if '=' in a {
      var i := FindFirst(a, '=');
      CutInName(a, d, e, b, i, repair);
    } else if '=' in b {
      var i := FindFirst(b, '=');
      CutInValue(a, d, e, b, i, repair);
    } else {
      SameEscapeFacts(d, e);
      CutPlain(a + d + b);
      CutPlain(a + e + b);
      DecodeInside(a, d, e, b);
    }
  }

  lemma {:induction false} ParseInside(a: Text, d: Text, e: Text, b: Text, repair: Text -> Text)
    requires SameEscape(d, e)
    ensures Parse(a + d + b, repair) == Parse(a + e + b, repair)
    decreases |a| + |b|
  {
    if '&' in a {
      var i := FindFirst(a, '&');
      var front, w := a[..i], a[i + 1..];
      ParseInside(w, d, e, b, repair);
      Regrouped(front, w, d, b, '&');
      Regrouped(front, w, e, b, '&');
      ParseJoined(front, w + d + b, repair);
      ParseJoined(front, w + e + b, repair);
    } else if '&' in b {
      var i := FindFirst(b, '&');
      var w, back := b[..i], b[i + 1..];
      ParseInside(a, d, e, w, repair);
      RegroupedBehind(a, d, w, back, '&');
      RegroupedBehind(a, e, w, back, '&');
      ParseJoined(a + d + w, back, repair);
      ParseJoined(a + e + w, back, repair);
    } else {
      SameEscapeFacts(d, e);
      CutInside(a, d, e, b, repair);
      ParseSingle(a + d + b, repair);
      ParseSingle(a + e + b, repair);
    }
  }

  /** The case of the digits of an escape, wherever it stands, makes no difference. */
  lemma CaseIsIrrelevant(a: Text, d: Text, e: Text, b: Text, repair: Text -> Text, drop: Text -> bool)
    requires SameEscape(d, e)
    ensures Canonical(a + d + b, repair, drop) == Canonical(a + e + b, repair, drop)
  {
    ParseInside(a, d, e, b, repair);
  }

  // ---------------------------------------------------------------- what is emitted

  const CAPITALS := "ABCDEFGHIJKLMNOPQRSTUVWXYZ"
  const LETTERS := "abcdefghijklmnopqrstuvwxyz"
  const DIGITS_AND_MARKS := "0123456789_.-~"

  predicate Literal(c: char) {
    c in CAPITALS || c in LETTERS || c in DIGITS_AND_MARKS
  }

  /** How each byte is emitted: as itself, as a plus, or as an escape with upper-case digits. */
  lemma QuotedByByte(t: Text, c: Byte)
    ensures QuotePlus(t + [c]) == QuotePlus(t) + (if c == ' ' then ['+'] else if Literal(c) then [c]
                                                  else ['%', UPPER[c as int / 16], UPPER[c as int % 16]])
    ensures QuotePlus([]) == []
  {
    QuoteJoined(t, [c]);
    assert [c][1..] == [];
    assert QuotePlus([c]) == QuoteByte(c);
    Capitals(c);
    Letters(c);
    DigitsAndMarks(c);
    UpperDigit(c as int / 16);
    UpperDigit(c as int % 16);
  }

  lemma {:induction false} QuoteJoined(a: Text, b: Text)
    ensures QuotePlus(a + b) == QuotePlus(a) + QuotePlus(b)
  {
    if a == [] {
      assert a + b == b;
    } else {
      QuoteJoined(a[1..], b);
      QuoteCons(a[0], a[1..] + b);
      assert a + b == [a[0]] + (a[1..] + b);
      TextAssociative(QuoteByte(a[0]), QuotePlus(a[1..]), QuotePlus(b));
    }
  }

  lemma QuoteCons(c: Byte, rest: Text)
    ensures QuotePlus([c] + rest) == QuoteByte(c) + QuotePlus(rest)
  {
    assert ([c] + rest)[1..] == rest;
  }

  lemma UpperDigit(n: nat)
    requires n < 16
    ensures HexDigit(n) == UPPER[n]
  {
  }

  lemma Capitals(c: char)
    ensures c in CAPITALS <==> 'A' <= c <= 'Z'
  {
    if 'A' <= c <= 'Z' {
      assert CAPITALS[c as int - 65] == c;
    }
  }

  lemma Letters(c: char)
    ensures c in LETTERS <==> 'a' <= c <= 'z'
  {
    if 'a' <= c <= 'z' {
      assert LETTERS[c as int - 97] == c;
    }
  }

  lemma DigitsAndMarks(c: char)
    ensures c in DIGITS_AND_MARKS <==> '0' <= c <= '9' || c == '_' || c == '.' || c == '-' || c == '~'
  {
    if '0' <= c <= '9' {
      assert DIGITS_AND_MARKS[c as int - 48] == c;
    }
    assert DIGITS_AND_MARKS[10] == '_' && DIGITS_AND_MARKS[11] == '.' && DIGITS_AND_MARKS[12] == '-'
           && DIGITS_AND_MARKS[13] == '~';
  }

  /** Exactly the parameters with a dropped name are missing, and each other one is there as often as before. */
  lemma {:induction false} KeptCount(params: seq<Param>, drop: Text -> bool, p: Param)
    ensures multiset(Kept(params, drop))[p] == if drop(p.0) then 0 else multiset(params)[p]
  {
    if params != [] {
      KeptCount(params[1..], drop, p);
      assert params == [params[0]] + params[1..];
    }
  }

  /** What a query is emitted as: its parameters less the dropped ones, sorted, printed. */
  lemma EmittedIsSorted(query: Text, repair: Text -> Text, drop: Text -> bool) returns (params: seq<Param>)
    ensures Canonical(query, repair, drop) == Print(params) && Sorted(params)
    ensures forall p :: multiset(params)[p] == if drop(p.0) then 0 else multiset(Parse(query, repair))[p]
  {
    params := Sort(Meaning(query, repair, drop));
    SortIsSortedPermutation(Meaning(query, repair, drop));
    forall p ensures multiset(params)[p] == if drop(p.0) then 0 else multiset(Parse(query, repair))[p] {
      KeptCount(Parse(query, repair), drop, p);
    }
  }
}
