/**
 * The few Qt text operations the configuration parsers, the command server
 * and the graph labels depend on: decimal formatting of integers (what
 * QString::arg and QTextStream produce), QString::toInt / toUInt /
 * toLongLong, ASCII upper-casing, and QString::split with a regular
 * expression and SkipEmptyParts for the four separator patterns the
 * program uses.
 */
module QtText {

  datatype Option<T> = None | Some(value: T)

  // Qt's \s, restricted to ASCII: space, tab, newline, vertical tab,
  // form feed and carriage return.
  predicate IsSpace(c: char) { c == ' ' || ('\t' <= c <= '\r') }

  predicate IsDigit(c: char) { '0' <= c <= '9' }

  predicate AllDigits(s: string) { forall i :: 0 <= i < |s| ==> IsDigit(s[i]) }

  const INT32_MIN: int := -0x8000_0000
  const INT32_MAX: int := 0x7FFF_FFFF
  const UINT32_MAX: int := 0xFFFF_FFFF
  const INT64_MIN: int := -0x8000_0000_0000_0000
  const INT64_MAX: int := 0x7FFF_FFFF_FFFF_FFFF

  /* ---------------------------------------------------------------- */
  /* Decimal formatting ---------------------------------------------- */
  /* ---------------------------------------------------------------- */

  function DigitChar(d: nat): (c: char)
    requires d < 10
    ensures IsDigit(c) && c as int - '0' as int == d
  {
    ('0' as int + d) as char
  }

  /** The shortest decimal spelling of n. */
  function NatToString(n: nat): (s: string)
    ensures |s| > 0 && AllDigits(s)
    ensures |s| > 1 ==> s[0] != '0'
  {
    if n < 10 then [DigitChar(n)] else NatToString(n / 10) + [DigitChar(n % 10)]
  }

  /** Decimal spelling with a leading minus for negative values. */
  function IntToString(i: int): (s: string)
    ensures |s| > 0
    ensures i >= 0 <==> IsDigit(s[0])
    ensures forall j :: 0 <= j < |s| ==> !IsSpace(s[j]) && s[j] != '(' && s[j] != ')' && s[j] != ',' && s[j] != ':'
  {
    if i < 0 then "-" + NatToString(-i) else NatToString(i)
  }

  /* ---------------------------------------------------------------- */
  /* Decimal parsing ------------------------------------------------- */
  /* ---------------------------------------------------------------- */

  function DigitsValue(s: string): nat
    requires AllDigits(s)
  {
    if s == [] then 0 else DigitsValue(s[..|s| - 1]) * 10 + (s[|s| - 1] as int - '0' as int)
  }

  lemma {:induction false} DigitsOfNat(n: nat)
    ensures DigitsValue(NatToString(n)) == n
  {
    var s := NatToString(n);
    if n >= 10 {
      DigitsOfNat(n / 10);
      assert s[..|s| - 1] == NatToString(n / 10);
    }
  }

  /**
   * The value of an optionally signed run of decimal digits, or None when
   * s is not of that form.
   */
  function SignedValue(s: string, allowMinus: bool): (r: Option<int>)
    ensures r.Some? ==> |s| > 0
    ensures r.Some? <==>
      ((s != [] && AllDigits(s)) || (|s| > 1 && (s[0] == '+' || (allowMinus && s[0] == '-')) && AllDigits(s[1..])))
    ensures r.Some? && !allowMinus ==> r.value >= 0
  {
    if |s| > 0 && (s[0] == '+' || (allowMinus && s[0] == '-')) then
      var body := s[1..];
      if body != [] && AllDigits(body) then
        var v: int := DigitsValue(body);
        Some(if s[0] == '-' then -v else v)
      else None
    else if s != [] && AllDigits(s) then Some(DigitsValue(s))
    else None
  }

  /** A parse that succeeded with a value inside [lo, hi]. */
  predicate InRange(r: Option<int>, lo: int, hi: int)
  {
    r.Some? && lo <= r.value <= hi
  }

  /**
   * Conversion into the interval [lo, hi]: the parsed value when s spells
   * one inside the interval, and 0 when s is malformed or out of range, as
   * Qt does.
   */
  function ToIntegral(s: string, allowMinus: bool, lo: int, hi: int): (v: int)
    requires lo <= 0 <= hi
    ensures lo <= v <= hi
    ensures InRange(SignedValue(s, allowMinus), lo, hi) ==> v == SignedValue(s, allowMinus).value
    ensures !InRange(SignedValue(s, allowMinus), lo, hi) ==> v == 0
  {
    match SignedValue(s, allowMinus)
    case Some(x) => if lo <= x <= hi then x else 0
    case None => 0
  }

  /** QString::toInt. */
  function ToInt(s: string): (v: int)
    ensures INT32_MIN <= v <= INT32_MAX
    ensures InRange(SignedValue(s, true), INT32_MIN, INT32_MAX) ==> v == SignedValue(s, true).value
    ensures !InRange(SignedValue(s, true), INT32_MIN, INT32_MAX) ==> v == 0
  {
    ToIntegral(s, true, INT32_MIN, INT32_MAX)
  }

  /** QString::toUInt. */
  function ToUInt(s: string): (v: int)
    ensures 0 <= v <= UINT32_MAX
    ensures InRange(SignedValue(s, false), 0, UINT32_MAX) ==> v == SignedValue(s, false).value
    ensures !InRange(SignedValue(s, false), 0, UINT32_MAX) ==> v == 0
  {
    ToIntegral(s, false, 0, UINT32_MAX)
  }

  /** QString::toLongLong. */
  function ToLongLong(s: string): (v: int)
    ensures INT64_MIN <= v <= INT64_MAX
    ensures InRange(SignedValue(s, true), INT64_MIN, INT64_MAX) ==> v == SignedValue(s, true).value
    ensures !InRange(SignedValue(s, true), INT64_MIN, INT64_MAX) ==> v == 0
  {
    ToIntegral(s, true, INT64_MIN, INT64_MAX)
  }

  lemma {:induction false} IntegralRoundTrip(i: int, lo: int, hi: int)
    requires lo <= 0 <= hi && lo <= i <= hi
    ensures ToIntegral(IntToString(i), lo < 0, lo, hi) == i
  {
    var s := IntToString(i);
    if i < 0 {
      assert s[1..] == NatToString(-i);
      DigitsOfNat(-i);
    } else {
      DigitsOfNat(i);
    }
  }

  lemma ToIntRoundTrip(i: int)
    requires INT32_MIN <= i <= INT32_MAX
    ensures ToInt(IntToString(i)) == i
  {
    IntegralRoundTrip(i, INT32_MIN, INT32_MAX);
  }

  lemma ToUIntRoundTrip(n: nat)
    requires n <= UINT32_MAX
    ensures ToUInt(IntToString(n)) == n
  {
    IntegralRoundTrip(n, 0, UINT32_MAX);
  }

  /* ---------------------------------------------------------------- */
  /* Case ------------------------------------------------------------ */
  /* ---------------------------------------------------------------- */

  function UpperChar(c: char): (u: char)
    ensures 'a' <= c <= 'z' ==> u as int == c as int - 32
    ensures !('a' <= c <= 'z') ==> u == c
  {
    if 'a' <= c <= 'z' then (c as int - 32) as char else c
  }

  /**
   * QString::toUpper restricted to ASCII: each lower-case ASCII letter is
   * upper-cased; this model keeps every other character, where Qt would
   * also map non-ASCII letters.
   */
  function ToUpper(s: string): (r: string)
    ensures |r| == |s|
    ensures forall i :: 0 <= i < |s| ==> r[i] == UpperChar(s[i])
  {
    seq(|s|, i requires 0 <= i < |s| => UpperChar(s[i]))
  }

  function LowerChar(c: char): (l: char)
    ensures 'A' <= c <= 'Z' ==> l as int == c as int + 32
    ensures !('A' <= c <= 'Z') ==> l == c
  {
    if 'A' <= c <= 'Z' then (c as int + 32) as char else c
  }

  lemma ToUpperIdempotent(s: string)
    ensures ToUpper(ToUpper(s)) == ToUpper(s)
  {
  }

  /* ---------------------------------------------------------------- */
  /* Splitting ------------------------------------------------------- */
  /* ---------------------------------------------------------------- */

  /**
   * The separator patterns handed to QString::split:
   *   Spaces    \s+
   *   Parens    ^\s*\(  |  \)\s*\(  |  \)\s*$
   *   Around(c) ^\s+  |  \s*c\s*
   */
  datatype Sep = Spaces | Parens | Around(c: char)

  /** Length of the run of whitespace at the head of t. */
  function SpaceRun(t: string): (n: nat)
    ensures n <= |t|
    ensures forall j :: 0 <= j < n ==> IsSpace(t[j])
    ensures n < |t| ==> !IsSpace(t[n])
  {
    if t != [] && IsSpace(t[0]) then 1 + SpaceRun(t[1..]) else 0
  }

  /**
   * Length of the separator match that begins at the head of t, 0 when
   * none does; t is the rest of the string being split, and atStart says
   * whether it is the whole of it (where ^ matches).
   */
  function SepLen(k: Sep, t: string, atStart: bool): (n: nat)
    ensures n <= |t|
  {
    match k
    case Spaces => SpaceRun(t)
    case Parens =>
      var w := SpaceRun(t);
      if atStart && w < |t| && t[w] == '(' then w + 1
      else if t != [] && t[0] == ')' then
        var w2 := SpaceRun(t[1..]);
        if 1 + w2 == |t| then 1 + w2
        else if t[1 + w2] == '(' then 2 + w2
        else 0
      else 0
    case Around(c) =>
      var w := SpaceRun(t);
      if atStart && w > 0 then w
      else if w < |t| && t[w] == c then w + 1 + SpaceRun(t[w + 1..])
      else 0
  }

  /** SkipEmptyParts: a piece is kept only when it is not empty. */
  function Piece(cur: string): (r: seq<string>)
    ensures forall i :: 0 <= i < |r| ==> r[i] != []
  {
    if cur == [] then [] else [cur]
  }

  /**
   * Splits the rest t of a string, cur being the piece collected so far.
   */
  function SplitRest(t: string, k: Sep, atStart: bool, cur: string): (r: seq<string>)
    ensures forall i :: 0 <= i < |r| ==> r[i] != []
    decreases |t|
  {
    if t == [] then Piece(cur)
    else
      var n := SepLen(k, t, atStart);
      if n > 0 then Piece(cur) + SplitRest(t[n..], k, false, [])
      else SplitRest(t[1..], k, false, cur + [t[0]])
  }

  /** QString::split(QRegExp(k), QString::SkipEmptyParts). */
  function Split(s: string, k: Sep): (r: seq<string>)
    ensures forall i :: 0 <= i < |r| ==> r[i] != []
  {
    SplitRest(s, k, true, [])
  }

  /** A character that can never begin a separator match away from the start. */
  predicate Plain(k: Sep, ch: char)
  {
    match k
    case Spaces => !IsSpace(ch)
    case Parens => ch != ')'
    case Around(c) => !IsSpace(ch) && ch != c
  }

  predicate AllPlain(k: Sep, w: string) { forall j :: 0 <= j < |w| ==> Plain(k, w[j]) }

  /** Characters that begin no separator at all, at the start included. */
  predicate Token(w: string)
  {
    w != [] && forall j :: 0 <= j < |w| ==> !IsSpace(w[j]) && w[j] != '(' && w[j] != ')' && w[j] != ',' && w[j] != ':'
  }

  lemma {:induction false} SkipPlain(k: Sep, w: string, rest: string, cur: string)
    requires AllPlain(k, w)
    ensures SplitRest(w + rest, k, false, cur) == SplitRest(rest, k, false, cur + w)
  {
    if w == [] {
      assert w + rest == rest;
      assert cur + w == cur;
    } else {
      var t := w + rest;
      assert t[0] == w[0];
      assert SepLen(k, t, false) == 0;
      assert t[1..] == w[1..] + rest;
      SkipPlain(k, w[1..], rest, cur + [w[0]]);
      assert cur + [w[0]] + w[1..] == cur + w;
    }
  }

  /** At a character that is a Token character, ^ changes nothing. */
  lemma StartPlain(k: Sep, t: string, cur: string)
    requires t != [] && !IsSpace(t[0]) && t[0] != '(' && t[0] != ')' && t[0] != ',' && t[0] != ':'
    requires k.Around? ==> t[0] != k.c
    ensures SplitRest(t, k, true, cur) == SplitRest(t, k, false, cur)
  {
    assert SepLen(k, t, true) == SepLen(k, t, false) == 0;
  }

  lemma TokenPlain(k: Sep, w: string)
    requires Token(w)
    requires k.Around? ==> k.c == ',' || k.c == ':'
    ensures AllPlain(k, w)
  {
  }

  /** ts[0] sep ts[1] sep ... ts[n-1]. */
  function JoinWith(ts: seq<string>, sep: string): (s: string)
    ensures ts == [] ==> s == []
  {
    if ts == [] then [] else if |ts| == 1 then ts[0] else ts[0] + sep + JoinWith(ts[1..], sep)
  }

  /** Three tokens joined: the first, the separator, the second, the separator, the third. */
  lemma JoinThree(a: string, b: string, c: string, sep: string)
    ensures JoinWith([a, b, c], sep) == a + sep + (b + sep + c)
  {
    var ts := [a, b, c];
    assert ts[1..] == [b, c] && ts[1..][1..] == [c];
    assert JoinWith([b, c], sep) == b + sep + c;
  }

  lemma {:induction false} SplitJoinSpacesRest(ts: seq<string>)
    requires |ts| > 0
    requires forall i :: 0 <= i < |ts| ==> ts[i] != [] && AllPlain(Spaces, ts[i])
    ensures SplitRest(JoinWith(ts, " "), Spaces, false, []) == ts
  {
    if |ts| == 1 {
      SkipPlain(Spaces, ts[0], [], []);
      assert ts[0] + [] == ts[0];
      assert [] + ts[0] == ts[0];
    } else {
      var tail := JoinWith(ts[1..], " ");
      var rest := " " + tail;
      assert JoinWith(ts, " ") == ts[0] + rest;
      SkipPlain(Spaces, ts[0], rest, []);
      assert [] + ts[0] == ts[0];
      assert tail[0] == ts[1][0];
      assert SpaceRun(rest) == 1;
      assert rest[1..] == tail;
      SplitJoinSpacesRest(ts[1..]);
      assert [ts[0]] + ts[1..] == ts;
    }
  }

  /** Splitting single-space-separated tokens on \s+ gives the tokens back. */
  lemma SplitJoinSpaces(ts: seq<string>)
    requires forall i :: 0 <= i < |ts| ==> ts[i] != [] && AllPlain(Spaces, ts[i])
    ensures Split(JoinWith(ts, " "), Spaces) == ts
  {
    if ts != [] {
      var t := JoinWith(ts, " ");
      assert t[0] == ts[0][0];
      assert SepLen(Spaces, t, true) == SepLen(Spaces, t, false) == 0;
      SplitJoinSpacesRest(ts);
    }
  }

  lemma {:induction false} SplitRestSpacesPlain(t: string, atStart: bool, cur: string)
    requires AllPlain(Spaces, cur)
    ensures forall i :: 0 <= i < |SplitRest(t, Spaces, atStart, cur)| ==>
      AllPlain(Spaces, SplitRest(t, Spaces, atStart, cur)[i])
    decreases |t|
  {
    if t != [] {
      var n := SepLen(Spaces, t, atStart);
      if n > 0 {
        SplitRestSpacesPlain(t[n..], false, []);
      } else {
        assert !IsSpace(t[0]);
        SplitRestSpacesPlain(t[1..], false, cur + [t[0]]);
      }
    }
  }

  /** The pieces of a split on \s+ hold no whitespace: trimming one changes nothing. */
  lemma SplitSpacesPlain(s: string)
    ensures forall i :: 0 <= i < |Split(s, Spaces)| ==> AllPlain(Spaces, Split(s, Spaces)[i])
  {
    SplitRestSpacesPlain(s, true, []);
  }

  /** A line of nothing but whitespace splits into no pieces at all. */
  lemma {:induction false} SplitAllSpaces(s: string)
    requires forall j :: 0 <= j < |s| ==> IsSpace(s[j])
    ensures Split(s, Spaces) == []
  {
    if s != [] {
      SpaceRunAll(s);
      assert SepLen(Spaces, s, true) == |s|;
      assert s[|s|..] == [];
      assert SplitRest(s, Spaces, true, []) == Piece([]) + SplitRest([], Spaces, false, []);
    }
  }

  lemma {:induction false} SpaceRunAll(s: string)
    requires forall j :: 0 <= j < |s| ==> IsSpace(s[j])
    ensures SpaceRun(s) == |s|
  {
    if s != [] {
      SpaceRunAll(s[1..]);
    }
  }

  /** Splitting "a" c "b" on ^\s+|\s*c\s* gives [a, b]. */
  lemma SplitAround(a: string, b: string, c: char)
    requires Token(a) && Token(b)
    requires c == ',' || c == ':'
    ensures Split(a + [c] + b, Around(c)) == [a, b]
  {
    var k := Around(c);
    var rest := [c] + b;
    assert a + [c] + b == a + rest;
    TokenPlain(k, a);
    TokenPlain(k, b);
    StartPlain(k, a + rest, []);
    SkipPlain(k, a, rest, []);
    assert [] + a == a;
    assert SpaceRun(rest) == 0;
    assert SpaceRun(rest[1..]) == 0;
    assert SepLen(k, rest, false) == 1;
    assert rest[1..] == b + [];
    SkipPlain(k, b, [], []);
    assert [] + b == b;
  }

  /** "(" p0 ")(" p1 ")" ... "(" pn ")". */
  function Parenthesised(ps: seq<string>): string
  {
    if ps == [] then [] else "(" + ps[0] + ")" + Parenthesised(ps[1..])
  }

  /** "(" at the very start opens the first piece. */
  lemma OpenAtStart(inner: string)
    ensures SplitRest("(" + inner, Parens, true, []) == SplitRest(inner, Parens, false, [])
  {
    var t := "(" + inner;
    assert SpaceRun(t) == 0;
    assert SepLen(Parens, t, true) == 1;
    assert t[1..] == inner;
  }

  /** ")" at the very end closes the last piece. */
  lemma CloseAtEnd(cur: string)
    ensures SplitRest(")", Parens, false, cur) == Piece(cur)
  {
    var t := ")";
    assert t[1..] == [];
    assert SepLen(Parens, t, false) == 1;
  }

  /** ")(" closes one piece and opens the next. */
  lemma CloseOpen(inner: string, cur: string)
    requires inner != [] && inner[0] != ')' && !IsSpace(inner[0])
    ensures SplitRest(")(" + inner, Parens, false, cur) == Piece(cur) + SplitRest(inner, Parens, false, [])
  {
    var t := ")(" + inner;
    assert t[1..] == "(" + inner;
    assert SpaceRun(t[1..]) == 0;
    assert SepLen(Parens, t, false) == 2;
    assert t[2..] == inner;
  }

  lemma {:induction false} SplitParensRest(ps: seq<string>, cur: string)
    requires |ps| > 0
    requires cur + ps[0] != []
    requires forall i :: 0 <= i < |ps| ==> AllPlain(Parens, ps[i])
    requires forall i :: 1 <= i < |ps| ==> ps[i] != [] && !IsSpace(ps[i][0])
    ensures SplitRest(ps[0] + ")" + Parenthesised(ps[1..]), Parens, false, cur) == [cur + ps[0]] + ps[1..]
  {
    var rest := ")" + Parenthesised(ps[1..]);
    ParensRestShape(ps);
    SkipPlain(Parens, ps[0], rest, cur);
    if |ps| == 1 {
      CloseAtEnd(cur + ps[0]);
    } else {
      var ps' := ps[1..];
      var inner := ps'[0] + ")" + Parenthesised(ps'[1..]);
      assert inner[0] == ps'[0][0];
      CloseOpen(inner, cur + ps[0]);
      SplitParensRest(ps', []);
      ConsFirst(ps');
    }
  }

  lemma ParensRestShape(ps: seq<string>)
    requires |ps| > 0
    ensures ps[0] + ")" + Parenthesised(ps[1..]) == ps[0] + (")" + Parenthesised(ps[1..]))
    ensures |ps| == 1 ==> ")" + Parenthesised(ps[1..]) == ")"
    ensures |ps| > 1 ==> ")" + Parenthesised(ps[1..]) == ")(" + (ps[1..][0] + ")" + Parenthesised(ps[1..][1..]))
  {
  }

  lemma ConsFirst(ps: seq<string>)
    requires ps != []
    ensures [] + ps[0] == ps[0] && [ps[0]] + ps[1..] == ps
  {
  }

  /** Splitting a chain of parenthesised pieces gives the pieces back. */
  lemma {:induction false} SplitParenthesised(ps: seq<string>)
    requires forall i :: 0 <= i < |ps| ==> ps[i] != [] && !IsSpace(ps[i][0]) && AllPlain(Parens, ps[i])
    ensures Split(Parenthesised(ps), Parens) == ps
  {
    if ps != [] {
      var inner := ps[0] + ")" + Parenthesised(ps[1..]);
      assert Parenthesised(ps) == "(" + inner;
      assert SplitRest("(" + inner, Parens, true, []) == SplitRest(inner, Parens, false, []) by {
        OpenAtStart(inner);
      }
      assert SplitRest(inner, Parens, false, []) == ps by {
        SplitParensRest(ps, []);
        assert [] + ps[0] == ps[0];
        assert [ps[0]] + ps[1..] == ps;
      }
    }
  }
}
