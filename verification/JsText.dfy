/** JavaScript strings as sequences of UTF-16 code units, with the few string
    operations the modelled programs use. */
module JsText {

  newtype CodeUnit = u: int | 0 <= u < 0x1_0000

  type Text = seq<CodeUnit>

  /** The code units of an ASCII literal (other characters become U+FFFD). */
  function Units(s: string): Text {
    seq(|s|, i requires 0 <= i < |s| =>
      if s[i] < 128 as char then s[i] as int as CodeUnit else 0xFFFD)
  }

  // ----- decimal numbers -----

  predicate IsDigit(u: CodeUnit) {
    48 <= u <= 57
  }

  /** The decimal rendering of a natural number. */
  function Decimal(n: nat): (t: Text)
    ensures |t| > 0
    ensures forall i | 0 <= i < |t| :: IsDigit(t[i])
  {
    if n < 10 then [(48 + n) as CodeUnit] else Decimal(n / 10) + [(48 + n % 10) as CodeUnit]
  }

  /** The value of a string of decimal digits. */
  function DecimalValue(t: Text): nat
    requires forall i | 0 <= i < |t| :: IsDigit(t[i])
  {
    if t == [] then 0
    else
      assert IsDigit(t[|t| - 1]);
      10 * DecimalValue(t[..|t| - 1]) + (t[|t| - 1] as int - 48)
  }

  lemma {:induction false} DecimalRoundTrip(n: nat)
    ensures DecimalValue(Decimal(n)) == n
  {
    if n < 10 {
      assert Decimal(n)[..0] == [];
    } else {
      DecimalRoundTrip(n / 10);
      assert Decimal(n)[..|Decimal(n)| - 1] == Decimal(n / 10);
    }
  }

  /** The length of the longest prefix made of units satisfying p. */
  function Run(t: Text, p: CodeUnit -> bool): (k: nat)
    ensures k <= |t|
    ensures forall i | 0 <= i < k :: p(t[i])
    ensures k < |t| ==> !p(t[k])
  {
    if t == [] || !p(t[0]) then 0 else 1 + Run(t[1..], p)
  }

  /** A run is exactly as long as the first failing unit says. */
  lemma RunIs(t: Text, p: CodeUnit -> bool, k: nat)
    requires k <= |t|
    requires forall i | 0 <= i < k :: p(t[i])
    requires k < |t| ==> !p(t[k])
    ensures Run(t, p) == k
  {
    var r := Run(t, p);
    assert r < |t| ==> !p(t[r]);
    assert k < |t| ==> !p(t[k]);
  }

  // ----- white space -----

  /** The WhiteSpace and LineTerminator units that `trim` and `\s` share. */
  predicate IsSpace(u: CodeUnit) {
    || 9 <= u <= 13 || u == 32 || u == 0xA0 || u == 0x1680
    || 0x2000 <= u <= 0x200A || u == 0x2028 || u == 0x2029
    || u == 0x202F || u == 0x205F || u == 0x3000 || u == 0xFEFF
  }

  function TrimStart(t: Text): Text {
    t[Run(t, IsSpace)..]
  }

  function TrimEnd(t: Text): (r: Text)
    ensures r <= t
    ensures r != [] ==> !IsSpace(r[|r| - 1])
    ensures forall i | |r| <= i < |t| :: IsSpace(t[i])
  {
    if t != [] && IsSpace(t[|t| - 1]) then TrimEnd(t[..|t| - 1]) else t
  }

  function Trim(t: Text): Text {
    TrimEnd(TrimStart(t))
  }

  // ----- identifiers -----

  /** White space in an identifier, which is kept as a Dafny string. */
  predicate IsSpaceChar(c: char) {
    c as int < 0x1_0000 && IsSpace(c as int as CodeUnit)
  }

  function TrimString(s: string): string {
    if s == "" then ""
    else if IsSpaceChar(s[0]) then TrimString(s[1..])
    else if IsSpaceChar(s[|s| - 1]) then TrimString(s[..|s| - 1])
    else s
  }
}
