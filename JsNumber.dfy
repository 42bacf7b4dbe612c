/** The parts of JavaScript's number semantics the expense screen relies on:
    `parseInt(s, 10)`, the string form of an integer-valued Number (which
    `parseInt` re-reads when it is handed the running total), and addition
    with `NaN` propagation. A Number is an unbounded `int`; `None` is `NaN`. */
module JsNumber {
  import opened Wrappers

  /** The characters `parseInt` strips before reading a sign: ECMAScript's
      WhiteSpace (tab, vertical tab, form feed, space, no-break space, the byte
      order mark and every space separator) and LineTerminator. */
  predicate IsWhiteSpace(c: char) {
    var k := c as int;
    k == 0x09 || k == 0x0A || k == 0x0B || k == 0x0C || k == 0x0D || k == 0x20 ||
    k == 0xA0 || k == 0x1680 || (0x2000 <= k <= 0x200A) || k == 0x2028 ||
    k == 0x2029 || k == 0x202F || k == 0x205F || k == 0x3000 || k == 0xFEFF
  }

  predicate IsDigit(c: char) {
    '0' <= c <= '9'
  }

  predicate AllDigits(s: string) {
    forall i :: 0 <= i < |s| ==> IsDigit(s[i])
  }

  function DigitValue(c: char): (d: nat)
    requires IsDigit(c)
    ensures d < 10
  {
    c as int - '0' as int
  }

  function DigitChar(d: nat): (c: char)
    requires d < 10
    ensures IsDigit(c) && DigitValue(c) == d
  {
    ('0' as int + d) as char
  }

  /** The string with its leading white space removed. */
  function TrimStart(s: string): string {
    if s != [] && IsWhiteSpace(s[0]) then TrimStart(s[1..]) else s
  }

  /** `TrimStart` drops a run of white space from the front and stops at the
      first other character. */
  lemma {:induction false} TrimStartSpec(s: string)
    ensures var t := TrimStart(s);
      |t| <= |s| && t == s[|s| - |t|..] &&
      (forall i :: 0 <= i < |s| - |t| ==> IsWhiteSpace(s[i])) &&
      (t == [] || !IsWhiteSpace(t[0]))
  {
    if s != [] && IsWhiteSpace(s[0]) {
      TrimStartSpec(s[1..]);
    }
  }

  /** The longest run of decimal digits at the front of `s`. */
  function DigitRun(s: string): (d: string)
    ensures AllDigits(d)
  {
    if s != [] && IsDigit(s[0]) then [s[0]] + DigitRun(s[1..]) else []
  }

  /** `DigitRun` is a prefix of digits that no further digit extends. */
  lemma {:induction false} DigitRunSpec(s: string)
    ensures var d := DigitRun(s);
      d <= s && (|d| == |s| || !IsDigit(s[|d|]))
  {
    if s != [] && IsDigit(s[0]) {
      DigitRunSpec(s[1..]);
      assert s == [s[0]] + s[1..];
    }
  }

  /** The value of a string of decimal digits, most significant first. */
  function DigitsValue(d: string): nat
    requires AllDigits(d)
  {
    if d == [] then 0 else DigitsValue(d[..|d| - 1]) * 10 + DigitValue(d[|d| - 1])
  }

  function Signed(negative: bool, n: nat): int {
    if negative then -(n as int) else n
  }

  /** `parseInt(s, 10)`: skip leading white space, take one optional sign,
      then the longest run of decimal digits; no digits gives `NaN`. */
  function ParseInt(s: string): Option<int> {
    ParseSigned(TrimStart(s))
  }

  /** `parseInt` after the white space: an optional sign, then digits. */
  function ParseSigned(t: string): Option<int> {
    var negative := t != [] && t[0] == '-';
    var unsigned := if t != [] && (t[0] == '-' || t[0] == '+') then t[1..] else t;
    var d := DigitRun(unsigned);
    if d == [] then None else Some(Signed(negative, DigitsValue(d)))
  }

  /** The decimal form of a natural number, without leading zeros. */
  function NatToString(n: nat): (s: string)
    ensures s != [] && AllDigits(s)
  {
    if n < 10 then [DigitChar(n)] else NatToString(n / 10) + [DigitChar(n % 10)]
  }

  /** `String(n)` for an integer-valued Number (no exponent notation);
      `parseInt` reads it back as `n`. */
  function IntToString(n: int): (s: string)
    ensures s != [] && (s[0] == '-' <==> n < 0)
    ensures ParseInt(s) == Some(n)
  {
    if n < 0 then
      ParseIntOfNatString(true, -n);
      "-" + NatToString(-n)
    else
      ParseIntOfNatString(false, n);
      NatToString(n)
  }

  /** `String(x)` for a Number that is an integer or `NaN`; `parseInt`
      reads it back as `x`, which is why re-parsing the running total
      leaves it unchanged. */
  function ToJsString(x: Option<int>): (s: string)
    ensures s != []
    ensures ParseInt(s) == x
  {
    match x
    case None =>
      assert "NaN" == "" + "" + "NaN";
      ParseIntNoDigits("", "", "NaN");
      "NaN"
    case Some(n) => IntToString(n)
  }

  /** Number addition: `NaN` if either operand is `NaN`. */
  function Plus(a: Option<int>, b: Option<int>): (r: Option<int>)
    ensures r.Some? <==> a.Some? && b.Some?
    ensures r.Some? ==> r.value == a.value + b.value
  {
    if a.Some? && b.Some? then Some(a.value + b.value) else None
  }

  lemma {:induction false} TrimStartAfterWhiteSpace(ws: string, x: string)
    requires forall i :: 0 <= i < |ws| ==> IsWhiteSpace(ws[i])
    requires x == [] || !IsWhiteSpace(x[0])
    ensures TrimStart(ws + x) == x
  {
    if ws == [] {
      assert ws + x == x;
    } else {
      assert (ws + x)[0] == ws[0];
      assert (ws + x)[1..] == ws[1..] + x;
      TrimStartAfterWhiteSpace(ws[1..], x);
    }
  }

  lemma {:induction false} DigitRunOfDigits(d: string, rest: string)
    requires AllDigits(d)
    requires rest == [] || !IsDigit(rest[0])
    ensures DigitRun(d + rest) == d
  {
    if d == [] {
      assert d + rest == rest;
    } else {
      assert (d + rest)[0] == d[0];
      assert (d + rest)[1..] == d[1..] + rest;
      DigitRunOfDigits(d[1..], rest);
    }
  }

  lemma ParseSignedLeadingInteger(sign: string, d: string, rest: string)
    requires sign == "" || sign == "+" || sign == "-"
    requires d != [] && AllDigits(d)
    requires rest == [] || !IsDigit(rest[0])
    ensures ParseSigned(sign + (d + rest)) == Some(Signed(sign == "-", DigitsValue(d)))
  {
    var u := d + rest;
    DigitRunOfDigits(d, rest);
    if sign == "" {
      assert sign + u == u;
      assert u[0] == d[0];
    } else {
      assert (sign + u)[0] == sign[0];
      assert (sign + u)[1..] == u;
    }
  }

  /** A string made of white space, an optional sign, at least one digit and a
      remainder that does not start with a digit parses to the signed value of
      those digits; whatever follows them is ignored. */
  lemma ParseIntLeadingInteger(ws: string, sign: string, d: string, rest: string)
    requires forall i :: 0 <= i < |ws| ==> IsWhiteSpace(ws[i])
    requires sign == "" || sign == "+" || sign == "-"
    requires d != [] && AllDigits(d)
    requires rest == [] || !IsDigit(rest[0])
    ensures ParseInt(ws + sign + d + rest) == Some(Signed(sign == "-", DigitsValue(d)))
  {
    var x := sign + (d + rest);
    assert ws + sign + d + rest == ws + x;
    assert x[0] == if sign == "" then d[0] else sign[0];
    TrimStartAfterWhiteSpace(ws, x);
    ParseSignedLeadingInteger(sign, d, rest);
  }

  /** When no digit follows the white space and the optional sign, the
      result is `NaN`. */
  lemma ParseIntNoDigits(ws: string, sign: string, rest: string)
    requires forall i :: 0 <= i < |ws| ==> IsWhiteSpace(ws[i])
    requires sign == "" || sign == "+" || sign == "-"
    requires rest == [] || !IsDigit(rest[0])
    requires sign == "" && rest != [] ==> !IsWhiteSpace(rest[0]) && rest[0] != '+' && rest[0] != '-'
    ensures ParseInt(ws + sign + rest) == None
  {
    var x := sign + rest;
    assert ws + sign + rest == ws + x;
    TrimStartAfterWhiteSpace(ws, x);
    if sign != "" {
      assert x[1..] == rest;
    }
  }

  lemma {:induction false} DigitsValueOfNatToString(n: nat)
    ensures DigitsValue(NatToString(n)) == n
  {
    if n >= 10 {
      var s := NatToString(n / 10);
      var c := DigitChar(n % 10);
      assert (s + [c])[..|s|] == s;
      DigitsValueOfNatToString(n / 10);
    }
  }

  /** A minus sign or nothing, followed by the decimal form of `m`, parses
      to the signed value of `m`. */
  lemma ParseIntOfNatString(negative: bool, m: nat)
    ensures ParseInt(if negative then "-" + NatToString(m) else NatToString(m)) == Some(Signed(negative, m))
  {
    var d := NatToString(m);
    DigitsValueOfNatToString(m);
    var sign := if negative then "-" else "";
    ParseIntLeadingInteger("", sign, d, "");
    assert "" + sign + d + "" == if negative then "-" + d else d;
  }

  /** Distinct integers have distinct string forms. */
  lemma IntToStringInjective(m: int, n: int)
    requires m != n
    ensures IntToString(m) != IntToString(n)
  {
  }

  /** A decimal amount counts with its integer part only. */
  lemma ParseIntTruncatesFraction()
    ensures ParseInt("12.50") == Some(12)
  {
    assert "12.50" == "" + "" + "12" + ".50";
    assert DigitsValue("12") == 12 by {
      assert "12"[..1] == "1";
      assert "1"[..0] == "";
    }
    ParseIntLeadingInteger("", "", "12", ".50");
  }
}
