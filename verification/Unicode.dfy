/** Unicode text as Go holds it (UTF-8 octets) and as the browser holds it
    (UTF-16 code units). */
module Unicode {
  import opened JsText

  newtype Scalar = c: int | 0 <= c < 0x11_0000 && !(0xD800 <= c < 0xE000)

  newtype Octet = b: int | 0 <= b < 0x100

  type Str = seq<Scalar>

  /** One character in UTF-8 (section 3 of RFC 3629). */
  function Octets(c: Scalar): (b: seq<Octet>)
    ensures 1 <= |b| <= 4
  {
    var n := c as int;
    if n < 0x80 then [n as Octet]
    else if n < 0x800 then [(0xC0 + n / 0x40) as Octet, (0x80 + n % 0x40) as Octet]
    else if n < 0x1_0000 then
      [(0xE0 + n / 0x1000) as Octet, (0x80 + n / 0x40 % 0x40) as Octet, (0x80 + n % 0x40) as Octet]
    else
      [(0xF0 + n / 0x4_0000) as Octet, (0x80 + n / 0x1000 % 0x40) as Octet,
       (0x80 + n / 0x40 % 0x40) as Octet, (0x80 + n % 0x40) as Octet]
  }

  function Utf8(s: Str): seq<Octet> {
    if s == [] then [] else Octets(s[0]) + Utf8(s[1..])
  }

  /** One character in UTF-16: itself, or a surrogate pair. */
  function UnitsOf(c: Scalar): (t: Text)
    ensures 1 <= |t| <= 2
  {
    var n := c as int;
    if n < 0x1_0000 then [n as CodeUnit]
    else [(0xD800 + (n - 0x1_0000) / 0x400) as CodeUnit, (0xDC00 + (n - 0x1_0000) % 0x400) as CodeUnit]
  }

  function Utf16(s: Str): Text {
    if s == [] then [] else UnitsOf(s[0]) + Utf16(s[1..])
  }

  predicate HighSurrogate(u: CodeUnit) {
    0xD800 <= u < 0xDC00
  }

  predicate LowSurrogate(u: CodeUnit) {
    0xDC00 <= u < 0xE000
  }

  /** The code point a JavaScript string iterator finds at position i, and the
      number of units it takes; a lone surrogate counts as itself. */
  function CodePointAt(t: Text, i: nat): (r: (nat, nat))
    requires i < |t|
    ensures 1 <= r.1 <= 2 && i + r.1 <= |t|
  {
    if HighSurrogate(t[i]) && i + 1 < |t| && LowSurrogate(t[i + 1]) then
      (0x1_0000 + (t[i] as int - 0xD800) * 0x400 + (t[i + 1] as int - 0xDC00), 2)
    else (t[i] as int, 1)
  }

  /** Reading one character back. */
  lemma CodePointOf(c: Scalar, before: Text, after: Text)
    ensures CodePointAt(before + UnitsOf(c) + after, |before|) == (c as int, |UnitsOf(c)|)
  {
    var t := before + UnitsOf(c) + after;
    assert t[|before|] == UnitsOf(c)[0];
    if c as int >= 0x1_0000 {
      assert t[|before| + 1] == UnitsOf(c)[1];
    }
  }
}
