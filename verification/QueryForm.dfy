/** The query stage of crawler/normalize.py: parse the parameters, drop the tracking ones, sort, print. Strings are their
    UTF-8 bytes, so the unreserved set is that of section 2.3 of RFC 3986 and an escape is that of its section 2.1. */
module QueryForm {
  import opened Base
  import opened Strings

  type Byte = c: char | c as int < 256 witness 'a'

  type Text = seq<Byte>

  type Param = (Text, Text)

  // ---------------------------------------------------------------- one name or value

  predicate Unreserved(c: Byte) {
    'a' <= c <= 'z' || 'A' <= c <= 'Z' || '0' <= c <= '9' || c == '_' || c == '.' || c == '-' || c == '~'
  }

  function HexDigit(n: nat): Byte
    requires n < 16
  {
    if n < 10 then (48 + n) as char else (55 + n) as char
  }

  function HexValue(c: char): Option<nat> {
    if '0' <= c <= '9' then Some(c as int - 48)
    else if 'A' <= c <= 'F' then Some(c as int - 55)
    else if 'a' <= c <= 'f' then Some(c as int - 87)
    else None
  }

  function QuoteByte(c: Byte): Text {
    if c == ' ' then ['+']
    else if Unreserved(c) then [c]
    else ['%', HexDigit(c as int / 16), HexDigit(c as int % 16)]
  }

  /** quote_plus. */
  function QuotePlus(t: Text): Text {
    if t == [] then [] else QuoteByte(t[0]) + QuotePlus(t[1..])
  }

  predicate IsEscape(s: Text) {
    |s| >= 3 && s[0] == '%' && HexValue(s[1]).Some? && HexValue(s[2]).Some?
  }

  function EscapedByte(s: Text): Byte
    requires IsEscape(s)
  {
    (16 * HexValue(s[1]).value + HexValue(s[2]).value) as char
  }

  /** unquote, on the bytes: a percent sign that starts no escape stands for itself. */
  function Unquote(s: Text): Text {
    if s == [] then []
    else if IsEscape(s) then [EscapedByte(s)] + Unquote(s[3..])
    else [s[0]] + Unquote(s[1..])
  }

  function PlusToSpace(s: Text): (r: Text)
    ensures |r| == |s| && forall i | 0 <= i < |s| :: r[i] == if s[i] == '+' then ' ' else s[i]
  {
    if s == [] then [] else [if s[0] == '+' then ' ' else s[0]] + PlusToSpace(s[1..])
  }

  lemma PlusToSpaceConcat(a: Text, b: Text)
    ensures PlusToSpace(a + b) == PlusToSpace(a) + PlusToSpace(b)
  {
  }

  lemma EscapeRoundTrip(c: Byte, rest: Text)
    requires c != ' ' && !Unreserved(c)
    ensures IsEscape(QuoteByte(c) + rest) && EscapedByte(QuoteByte(c) + rest) == c
  {
    var hi, lo := c as int / 16, c as int % 16;
    assert HexValue(HexDigit(hi)) == Some(hi) && HexValue(HexDigit(lo)) == Some(lo);
    assert 16 * hi + lo == c as int;
  }

  lemma {:induction false} UnquoteUndoesQuote(t: Text)
    ensures Unquote(PlusToSpace(QuotePlus(t))) == t
  {
    if t != [] {
      var c, rest := t[0], PlusToSpace(QuotePlus(t[1..]));
      PlusToSpaceConcat(QuoteByte(c), QuotePlus(t[1..]));
      UnquoteUndoesQuote(t[1..]);
      if c != ' ' && !Unreserved(c) {
        EscapeRoundTrip(c, rest);
        assert PlusToSpace(QuoteByte(c)) == QuoteByte(c);
        assert (QuoteByte(c) + rest)[3..] == rest;
      } else {
        assert PlusToSpace(QuoteByte(c)) == [c];
        assert ([c] + rest)[1..] == rest;
      }
    }
  }

  /** Neither separator survives quoting. */
  lemma {:induction false} QuotedIsPlain(t: Text)
    ensures '&' !in QuotePlus(t) && '=' !in QuotePlus(t)
  {
    if t != [] {
      QuotedIsPlain(t[1..]);
    }
  }

  // ---------------------------------------------------------------- lists of parameters

  /** s.split('=', 1), with the blank value of a piece that has no '='. */
  function Cut(s: Text): Param {
    if s == [] then ([], [])
    else if s[0] == '=' then ([], s[1..])
    else var (k, v) := Cut(s[1..]); ([s[0]] + k, v)
  }

  /** `repair` replaces what is not UTF-8, as the decoding of unquoted bytes does. */
  function ParsePiece(piece: Text, repair: Text -> Text): Param {
    (repair(Unquote(PlusToSpace(Cut(piece).0))), repair(Unquote(PlusToSpace(Cut(piece).1))))
  }

  function ParsePieces(pieces: seq<Text>, repair: Text -> Text): seq<Param> {
    if pieces == [] then []
    else if pieces[0] == [] then ParsePieces(pieces[1..], repair)
    else [ParsePiece(pieces[0], repair)] + ParsePieces(pieces[1..], repair)
  }

  /** parse_qsl with keep_blank_values. */
  function Parse(query: Text, repair: Text -> Text): seq<Param> {
    ParsePieces(SplitOn<Byte>(query, '&'), repair)
  }

  function PrintParam(p: Param): Text {
    QuotePlus(p.0) + ['='] + QuotePlus(p.1)
  }

  /** urlencode. */
  function Print(params: seq<Param>): Text {
    if params == [] then []
    else if |params| == 1 then PrintParam(params[0])
    else PrintParam(params[0]) + ['&'] + Print(params[1..])
  }

  lemma {:induction false} CutAtFirst(k: Text, v: Text)
    requires '=' !in k
    ensures Cut(k + ['='] + v) == (k, v)
  {
    if k == [] {
      assert k + ['='] + v == ['='] + v;
    } else {
      CutAtFirst(k[1..], v);
      assert (k + ['='] + v)[1..] == k[1..] + ['='] + v && k == [k[0]] + k[1..];
    }
  }

  lemma PrintedIsPlain(p: Param)
    ensures '&' !in PrintParam(p) && PrintParam(p) != []
  {
    QuotedIsPlain(p.0);
    QuotedIsPlain(p.1);
    assert '=' in PrintParam(p);
  }

  predicate Repaired(params: seq<Param>, repair: Text -> Text) {
    forall i | 0 <= i < |params| :: repair(params[i].0) == params[i].0 && repair(params[i].1) == params[i].1
  }

  lemma ParamRoundTrip(p: Param, repair: Text -> Text)
    requires repair(p.0) == p.0 && repair(p.1) == p.1
    ensures ParsePiece(PrintParam(p), repair) == p
  {
    QuotedIsPlain(p.0);
    CutAtFirst(QuotePlus(p.0), QuotePlus(p.1));
    UnquoteUndoesQuote(p.0);
    UnquoteUndoesQuote(p.1);
  }

  lemma SinglePiece(piece: Text, repair: Text -> Text)
    requires piece != []
    ensures ParsePieces([piece], repair) == [ParsePiece(piece, repair)]
  {
    assert [piece][1..] == [];
  }

  /** parse_qsl(urlencode(L)) == L, for every list, blanks and repetitions included. */
  lemma {:induction false} ParseUndoesPrint(params: seq<Param>, repair: Text -> Text)
    requires Repaired(params, repair)
    ensures Parse(Print(params), repair) == params
  {
    if params != [] {
      PrintedIsPlain(params[0]);
      ParamRoundTrip(params[0], repair);
      if |params| == 1 {
        SplitPlain<Byte>(PrintParam(params[0]), '&');
        assert params == [params[0]];
        SinglePiece(PrintParam(params[0]), repair);
      } else {
        ParseUndoesPrint(params[1..], repair);
        SplitFirst<Byte>(PrintParam(params[0]), Print(params[1..]), '&');
        var rest := SplitOn<Byte>(Print(params[1..]), '&');
        assert ([PrintParam(params[0])] + rest)[1..] == rest;
        assert params == [params[0]] + params[1..];
      }
    }
  }

  // ---------------------------------------------------------------- order

  /** The order of tuples: names first, then values. */
  predicate ParamLe(a: Param, b: Param) {
    if a.0 == b.0 then StrLe(a.1, b.1) else StrLe(a.0, b.0)
  }

  predicate Sorted(params: seq<Param>) {
    forall i, j | 0 <= i < j < |params| :: ParamLe(params[i], params[j])
  }

  function Insert(p: Param, params: seq<Param>): seq<Param> {
    if params == [] || ParamLe(p, params[0]) then [p] + params else [params[0]] + Insert(p, params[1..])
  }

  function Sort(params: seq<Param>): seq<Param> {
    if params == [] then [] else Insert(params[0], Sort(params[1..]))
  }

  lemma ParamLeTotal(a: Param, b: Param)
    ensures ParamLe(a, b) || ParamLe(b, a)
  {
    StrLeTotal(a.0, b.0);
    StrLeTotal(a.1, b.1);
  }

  lemma ParamLeAntisymmetric(a: Param, b: Param)
    requires ParamLe(a, b) && ParamLe(b, a)
    ensures a == b
  {
    if a.0 == b.0 {
      StrLeAntisymmetric(a.1, b.1);
    } else {
      StrLeAntisymmetric(a.0, b.0);
    }
  }

  lemma ParamLeTransitive(a: Param, b: Param, c: Param)
    requires ParamLe(a, b) && ParamLe(b, c)
    ensures ParamLe(a, c)
  {
    if a.0 == b.0 && b.0 == c.0 {
      StrLeTransitive(a.1, b.1, c.1);
    } else if a.0 != b.0 && b.0 != c.0 {
      StrLeTransitive(a.0, b.0, c.0);
      if a.0 == c.0 {
        StrLeAntisymmetric(a.0, b.0);
      }
    }
  }

  lemma {:induction false} InsertSorts(p: Param, params: seq<Param>)
    requires Sorted(params)
    ensures Sorted(Insert(p, params)) && multiset(Insert(p, params)) == multiset(params) + multiset{p}
  {
    if params == [] {
    } else if ParamLe(p, params[0]) {
      forall j | 0 <= j < |params| ensures ParamLe(p, params[j]) {
        if j > 0 {
          ParamLeTransitive(p, params[0], params[j]);
        }
      }
    } else {
      ParamLeTotal(p, params[0]);
      var rest := Insert(p, params[1..]);
      InsertSorts(p, params[1..]);
      assert params == [params[0]] + params[1..];
      forall j | 0 <= j < |rest| ensures ParamLe(params[0], rest[j]) {
        assert rest[j] in multiset(rest);
        assert rest[j] in multiset(params[1..]) || rest[j] == p;
      }
    }
  }

  lemma {:induction false} SortIsSortedPermutation(params: seq<Param>)
    ensures Sorted(Sort(params)) && multiset(Sort(params)) == multiset(params)
  {
    if params != [] {
      SortIsSortedPermutation(params[1..]);
      InsertSorts(params[0], Sort(params[1..]));
      assert params == [params[0]] + params[1..];
    }
  }

  lemma FirstIsLeast(a: seq<Param>, p: Param)
    requires Sorted(a) && a != [] && p in multiset(a)
    ensures ParamLe(a[0], p)
  {
    ParamLeTotal(p, p);
    var i :| 0 <= i < |a| && a[i] == p;
  }

  /** A multiset of parameters has one sorted list. */
  lemma {:induction false} SortedIsUnique(a: seq<Param>, b: seq<Param>)
    requires Sorted(a) && Sorted(b) && multiset(a) == multiset(b)
    ensures a == b
    decreases |a|
  {
    assert |multiset(a)| == |a| && |multiset(b)| == |b|;
    if a != [] {
      assert a[0] in multiset(a) && b[0] in multiset(b);
      FirstIsLeast(a, b[0]);
      FirstIsLeast(b, a[0]);
      ParamLeAntisymmetric(a[0], b[0]);
      assert a == [a[0]] + a[1..] && b == [b[0]] + b[1..];
      assert multiset(a[1..]) == multiset(a) - multiset{a[0]};
      SortedIsUnique(a[1..], b[1..]);
    }
  }

  // ---------------------------------------------------------------- the canonical query

  /** The parameters whose name `drop` does not match. */
  function Kept(params: seq<Param>, drop: Text -> bool): seq<Param> {
    if params == [] then []
    else (if drop(params[0].0) then [] else [params[0]]) + Kept(params[1..], drop)
  }

  /** The parameters a query stands for: parsed, with the tracking names dropped. */
  function Meaning(query: Text, repair: Text -> Text, drop: Text -> bool): seq<Param> {
    Kept(Parse(query, repair), drop)
  }

  function Canonical(query: Text, repair: Text -> Text, drop: Text -> bool): Text {
    Print(Sort(Meaning(query, repair, drop)))
  }

  ghost predicate Idempotent(repair: Text -> Text) {
    forall t :: repair(repair(t)) == repair(t)
  }

  lemma {:induction false} ParsedIsRepaired(pieces: seq<Text>, repair: Text -> Text)
    requires Idempotent(repair)
    ensures Repaired(ParsePieces(pieces, repair), repair)
  {
    if pieces != [] {
      ParsedIsRepaired(pieces[1..], repair);
    }
  }

  lemma {:induction false} KeptMembers(params: seq<Param>, drop: Text -> bool)
    ensures forall p | p in Kept(params, drop) :: p in params && !drop(p.0)
  {
    if params != [] {
      KeptMembers(params[1..], drop);
    }
  }

  lemma {:induction false} KeepingAll(params: seq<Param>, drop: Text -> bool)
    requires forall p | p in params :: !drop(p.0)
    ensures Kept(params, drop) == params
  {
    if params != [] {
      KeepingAll(params[1..], drop);
      assert params == [params[0]] + params[1..];
    }
  }

  /** Parsing the canonical query gives the parameters of the query, sorted; none of them has a dropped name. */
  lemma CanonicalKeepsMeaning(query: Text, repair: Text -> Text, drop: Text -> bool)
    requires Idempotent(repair)
    ensures Parse(Canonical(query, repair, drop), repair) == Sort(Meaning(query, repair, drop))
    ensures multiset(Parse(Canonical(query, repair, drop), repair)) == multiset(Meaning(query, repair, drop))
    ensures forall p | p in Parse(Canonical(query, repair, drop), repair) :: !drop(p.0)
  {
    var kept := Meaning(query, repair, drop);
    var sorted := Sort(kept);
    SortIsSortedPermutation(kept);
    KeptMembers(Parse(query, repair), drop);
    ParsedIsRepaired(SplitOn<Byte>(query, '&'), repair);
    forall p | p in sorted ensures p in kept {
      assert p in multiset(sorted);
    }
    ParseUndoesPrint(sorted, repair);
  }

  /** Two queries print the same exactly when they have the same parameters, order aside, once the tracking ones are
      dropped. */
  lemma CanonicalIsExact(q: Text, r: Text, repair: Text -> Text, drop: Text -> bool)
    requires Idempotent(repair)
    ensures Canonical(q, repair, drop) == Canonical(r, repair, drop)
            <==> multiset(Meaning(q, repair, drop)) == multiset(Meaning(r, repair, drop))
  {
    CanonicalKeepsMeaning(q, repair, drop);
    CanonicalKeepsMeaning(r, repair, drop);
    SortIsSortedPermutation(Meaning(q, repair, drop));
    SortIsSortedPermutation(Meaning(r, repair, drop));
    if multiset(Meaning(q, repair, drop)) == multiset(Meaning(r, repair, drop)) {
      SortedIsUnique(Sort(Meaning(q, repair, drop)), Sort(Meaning(r, repair, drop)));
    }
  }

  /** A second pass changes nothing. */
  lemma CanonicalIsIdempotent(q: Text, repair: Text -> Text, drop: Text -> bool)
    requires Idempotent(repair)
    ensures Canonical(Canonical(q, repair, drop), repair, drop) == Canonical(q, repair, drop)
  {
    CanonicalKeepsMeaning(q, repair, drop);
    KeepingAll(Parse(Canonical(q, repair, drop), repair), drop);
    CanonicalIsExact(Canonical(q, repair, drop), q, repair, drop);
  }
}
