/** String literals in JSON: as Go writes them, and as the browser reads them. */
module JsonString {
  import opened Sequences
  import opened JsText
  import opened Transcript

  const QUOTE: CodeUnit := 34
  const BACKSLASH: CodeUnit := 92

  function HexDigit(n: nat): (u: CodeUnit)
    requires n < 16
  {
    if n < 10 then (48 + n) as CodeUnit else (87 + n) as CodeUnit
  }

  function HexValue(u: CodeUnit): (n: Option<nat>)
    ensures n.Some? ==> n.value < 16
  {
    if 48 <= u <= 57 then Some(u as int - 48)
    else if 97 <= u <= 102 then Some(u as int - 87)
    else if 65 <= u <= 70 then Some(u as int - 55)
    else None
  }

  /** \u and four hexadecimal digits. */
  function UnicodeEscape(u: CodeUnit): Text {
    var n := u as int;
    [BACKSLASH, 117, HexDigit(n / 0x1000), HexDigit(n / 0x100 % 16), HexDigit(n / 16 % 16), HexDigit(n % 16)]
  }

  /** One unit as the encoder writes it: quotes, backslashes, controls, the
      characters that are special in HTML, and the two line separators are
      escaped. */
  function EscapeUnit(u: CodeUnit): (t: Text)
    ensures t != [] && t[0] != QUOTE
  {
    if u == QUOTE || u == BACKSLASH then [BACKSLASH, u]
    else if u == 8 then [BACKSLASH, 98]
    else if u == 12 then [BACKSLASH, 102]
    else if u == 10 then [BACKSLASH, 110]
    else if u == 13 then [BACKSLASH, 114]
    else if u == 9 then [BACKSLASH, 116]
    else if u < 32 || u == 60 || u == 62 || u == 38 || u == 0x2028 || u == 0x2029 then UnicodeEscape(u)
    else [u]
  }

  function Escape(t: Text): Text {
    if t == [] then [] else EscapeUnit(t[0]) + Escape(t[1..])
  }

  lemma EscapeHead(t: Text)
    requires t != []
    ensures Escape(t) == EscapeUnit(t[0]) + Escape(t[1..])
  {
  }

  /** json.Marshal of a string. */
  function Quoted(t: Text): Text {
    [QUOTE] + Escape(t) + [QUOTE]
  }

  /** What stands for an escape letter. */
  function Unletter(u: CodeUnit): Option<CodeUnit> {
    if u == QUOTE || u == BACKSLASH || u == 47 then Some(u)
    else if u == 98 then Some(8)
    else if u == 102 then Some(12)
    else if u == 110 then Some(10)
    else if u == 114 then Some(13)
    else if u == 116 then Some(9)
    else None
  }

  /** The first unit of a literal's body, and how many units it takes. */
  function UnescapeUnit(t: Text): (r: Option<(CodeUnit, nat)>)
    requires t != []
    ensures r.Some? ==> 1 <= r.value.1 <= |t|
  {
    if t[0] == QUOTE || t[0] < 32 then None
    else if t[0] != BACKSLASH then Some((t[0], 1))
    else if |t| < 2 then None
    else if t[1] == 117 then
      if |t| < 6 then None
      else
        var a, b, c, d := HexValue(t[2]), HexValue(t[3]), HexValue(t[4]), HexValue(t[5]);
        if a.None? || b.None? || c.None? || d.None? then None
        else Some(((a.value * 0x1000 + b.value * 0x100 + c.value * 16 + d.value) as CodeUnit, 6))
    else
      var u := Unletter(t[1]);
      if u.None? then None else Some((u.value, 2))
  }

  /** JSON.parse of a string literal, from the text between its quotes. */
  function Unescape(t: Text): (r: Option<Text>)
    decreases |t|
  {
    if t == [] then Some([])
    else
      var u := UnescapeUnit(t);
      if u.None? then None
      else
        var rest := Unescape(t[u.value.1..]);
        if rest.None? then None else Some([u.value.0] + rest.value)
  }

  lemma HexRoundTrip(n: nat)
    requires n < 16
    ensures HexValue(HexDigit(n)) == Some(n)
  {
  }

  lemma FourDigits(n: nat)
    requires n < 0x1_0000
    ensures n / 0x1000 < 16
    ensures n / 0x1000 * 0x1000 + n / 0x100 % 16 * 0x100 + n / 16 % 16 * 16 + n % 16 == n
  {
    assert n / 0x100 == n / 16 / 16 && n / 0x1000 == n / 16 / 16 / 16;
  }

  lemma UnescapeHex(u: CodeUnit, t: Text)
    requires |t| >= 6 && t[..6] == UnicodeEscape(u)
    ensures UnescapeUnit(t) == Some((u, 6))
  {
    var n, e := u as int, UnicodeEscape(u);
    assert t[0] == e[0] && t[1] == e[1] && t[2] == e[2] && t[3] == e[3] && t[4] == e[4] && t[5] == e[5] by {
      assert forall i | 0 <= i < 6 :: t[i] == t[..6][i];
    }
    FourDigits(n);
    HexRoundTrip(n / 0x1000);
    HexRoundTrip(n / 0x100 % 16);
    HexRoundTrip(n / 16 % 16);
    HexRoundTrip(n % 16);
  }

  lemma UnescapeEscapedUnit(u: CodeUnit, rest: Text)
    ensures UnescapeUnit(EscapeUnit(u) + rest) == Some((u, |EscapeUnit(u)|))
  {
    var e := EscapeUnit(u);
    var t := e + rest;
    if |e| == 6 {
      assert t[..6] == e;
      UnescapeHex(u, t);
    } else {
      assert t[0] == e[0];
      if |e| == 2 { assert t[1] == e[1]; }
    }
  }

  /** Reading what was written gives the string back. */
  lemma {:induction false} JsonRoundTrip(t: Text)
    ensures Unescape(Escape(t)) == Some(t)
  {
    if t != [] {
      var e, rest := EscapeUnit(t[0]), Escape(t[1..]);
      UnescapeEscapedUnit(t[0], rest);
      assert (e + rest)[|e|..] == rest;
      JsonRoundTrip(t[1..]);
      assert [t[0]] + t[1..] == t;
    }
  }

  /** Where a literal's body ends: the length before the closing quote, as the
      browser's pattern finds it. */
  function BodyLength(t: Text): (n: Option<nat>)
    ensures n.Some? ==> n.value < |t| && t[n.value] == QUOTE
    decreases |t|
  {
    if t == [] then None
    else if t[0] == QUOTE then Some(0)
    else if t[0] == 10 || t[0] == 13 then None
    else if t[0] == BACKSLASH then
      if |t| < 2 || t[1] == 10 || t[1] == 13 || t[1] == 0x2028 || t[1] == 0x2029 then None
      else
        var n := BodyLength(t[2..]);
        if n.None? then None else Some(n.value + 2)
    else
      var n := BodyLength(t[1..]);
      if n.None? then None else Some(n.value + 1)
  }

  lemma BodyAfterPlain(t: Text, n: Option<nat>)
    requires t != [] && t[0] != QUOTE && t[0] != BACKSLASH && t[0] != 10 && t[0] != 13
    requires BodyLength(t[1..]) == n && n.Some?
    ensures BodyLength(t) == Some(1 + n.value)
  {
  }

  lemma BodyOfPlain(u: CodeUnit, rest: Text)
    requires u != QUOTE && u != BACKSLASH && u != 10 && u != 13 && BodyLength(rest).Some?
    ensures BodyLength([u] + rest) == Some(1 + BodyLength(rest).value)
  {
    hide BodyLength;
    var n := BodyLength(rest);
    assert ([u] + rest)[1..] == rest;
    BodyAfterPlain([u] + rest, n);
  }

  lemma BodyOfPair(u: CodeUnit, rest: Text)
    requires u != 10 && u != 13 && u != 0x2028 && u != 0x2029 && BodyLength(rest).Some?
    ensures BodyLength([BACKSLASH, u] + rest) == Some(2 + BodyLength(rest).value)
  {
    hide BodyLength;
    var t := [BACKSLASH, u] + rest;
    var n := BodyLength(rest);
    assert t[2..] == rest;
    BodyAfterBackslash(t, n);
  }

  lemma BodyAfterBackslash(t: Text, n: Option<nat>)
    requires |t| >= 2 && t[0] == BACKSLASH && t[1] != 10 && t[1] != 13 && t[1] != 0x2028 && t[1] != 0x2029
    requires BodyLength(t[2..]) == n && n.Some?
    ensures BodyLength(t) == Some(n.value + 2)
  {
  }

  /** A unit that stands for itself in a literal. */
  predicate Plain(u: CodeUnit) {
    u != QUOTE && u != BACKSLASH && u != 10 && u != 13
  }

  lemma BodyOfFour(a: CodeUnit, b: CodeUnit, c: CodeUnit, d: CodeUnit, rest: Text)
    requires Plain(a) && Plain(b) && Plain(c) && Plain(d)
    requires BodyLength(rest).Some?
    ensures BodyLength([a, b, c, d] + rest) == Some(4 + BodyLength(rest).value)
  {
    hide BodyLength;
    BodyOfPlain(d, rest);
    BodyOfPlain(c, [d] + rest);
    BodyOfPlain(b, [c] + ([d] + rest));
    BodyOfPlain(a, [b] + ([c] + ([d] + rest)));
    assert [a] + ([b] + ([c] + ([d] + rest))) == [a, b, c, d] + rest;
  }

  lemma HexForm(u: CodeUnit) returns (a: CodeUnit, b: CodeUnit, c: CodeUnit, d: CodeUnit)
    ensures UnicodeEscape(u) == [BACKSLASH, 117] + [a, b, c, d]
    ensures Plain(a) && Plain(b) && Plain(c) && Plain(d)
  {
    var e := UnicodeEscape(u);
    a, b, c, d := e[2], e[3], e[4], e[5];
  }

  lemma BodyOfHex(u: CodeUnit, rest: Text)
    requires BodyLength(rest).Some?
    ensures BodyLength(UnicodeEscape(u) + rest) == Some(6 + BodyLength(rest).value)
  {
    hide BodyLength, UnicodeEscape;
    var a, b, c, d := HexForm(u);
    BodyOfFour(a, b, c, d, rest);
    BodyOfPair(117, [a, b, c, d] + rest);
    Associative([BACKSLASH, 117], [a, b, c, d], rest);
  }

  /** The three forms an escaped unit has. */
  lemma EscapeForms(u: CodeUnit)
    ensures
      || (EscapeUnit(u) == [u] && u != QUOTE && u != BACKSLASH && u != 10 && u != 13)
      || (|EscapeUnit(u)| == 2 && EscapeUnit(u) == [BACKSLASH, EscapeUnit(u)[1]]
          && EscapeUnit(u)[1] != 10 && EscapeUnit(u)[1] != 13 && EscapeUnit(u)[1] != 0x2028 && EscapeUnit(u)[1] != 0x2029)
      || (EscapeUnit(u) == UnicodeEscape(u) && |UnicodeEscape(u)| == 6)
  {
  }

  lemma BodyOfEscapedUnit(u: CodeUnit, rest: Text)
    requires BodyLength(rest).Some?
    ensures BodyLength(EscapeUnit(u) + rest) == Some(|EscapeUnit(u)| + BodyLength(rest).value)
  {
    hide BodyLength, EscapeUnit, UnicodeEscape;
    var e := EscapeUnit(u);
    EscapeForms(u);
    if |e| == 1 {
      BodyOfPlain(u, rest);
    } else if |e| == 2 {
      BodyOfPair(e[1], rest);
    } else {
      BodyOfHex(u, rest);
    }
  }

  lemma {:induction false} BodyOfEscaped(t: Text, rest: Text)
    requires rest != [] && rest[0] == QUOTE
    ensures BodyLength(Escape(t) + rest) == Some(|Escape(t)|)
  {
    if t == [] {
      assert Escape(t) + rest == rest;
    } else {
      hide BodyLength, EscapeUnit, Escape;
      BodyOfEscaped(t[1..], rest);
      BodyOfEscapedUnit(t[0], Escape(t[1..]) + rest);
      EscapeHead(t);
      Associative(EscapeUnit(t[0]), Escape(t[1..]), rest);
    }
  }
}
