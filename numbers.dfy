/** Numbers as the form fields hold them: `parseFloat` of a typed text, and
    the text `toString()` gives a number. */
module Numbers {
  import opened Common
  import opened Text
  import opened Calendar

  /** A numeric field's text: what was typed, or `value.toString()` when the
      page filled it in from a number. */
  datatype NumberText = Typed(text: string) | Printed(value: real)

  /** `parseFloat(field)`: a number filled in by the page reads back as itself. */
  function NumberValue(a: NumberText): Option<real>
  {
    match a
    case Typed(text) => ParseFloat(text)
    case Printed(v) => Some(v)
  }

  function Pow10(n: nat): (r: nat)
    ensures r >= 1
  {
    if n == 0 then 1 else 10 * Pow10(n - 1)
  }

  /** The length of the run of digits `s` starts with. */
  function DigitRun(s: string): (n: nat)
    ensures n <= |s|
    ensures forall i :: 0 <= i < n ==> IsDigit(s[i])
    ensures n < |s| ==> !IsDigit(s[n])
  {
    if s != [] && IsDigit(s[0]) then 1 + DigitRun(s[1..]) else 0
  }

  /** `parseFloat(text)` for plain decimals: white space, a sign, digits and
      a fraction are read from the front and the rest is ignored; `None`
      (NaN) when no digit is read. */
  function ParseFloat(text: string): (r: Option<real>)
    ensures TrimStart(text) == [] ==> r.None?
    ensures var t := TrimStart(text);
            var u := if t != [] && (t[0] == '-' || t[0] == '+') then t[1..] else t;
            r.None? <==> !((u != [] && IsDigit(u[0])) || (|u| >= 2 && u[0] == '.' && IsDigit(u[1])))
  {
    ParseSigned(TrimStart(text))
  }

  /** An optional sign, then the unsigned part; a '-' negates it. */
  function ParseSigned(t: string): (r: Option<real>)
    ensures var u := if t != [] && (t[0] == '-' || t[0] == '+') then t[1..] else t;
            r.None? <==> ParseUnsigned(u).None?
  {
    var signed := t != [] && (t[0] == '-' || t[0] == '+');
    var v := ParseUnsigned(if signed then t[1..] else t);
    if v.Some? && signed && t[0] == '-' then Some(-v.value) else v
  }

  /** The digits and the fraction that follow the sign. */
  function ParseUnsigned(u: string): (r: Option<real>)
    ensures u == [] ==> r.None?
    ensures r.None? <==> !((u != [] && IsDigit(u[0])) || (|u| >= 2 && u[0] == '.' && IsDigit(u[1])))
  {
    var whole := u[..DigitRun(u)];
    var frac := Fraction(u[DigitRun(u)..]);
    if whole == [] && frac == [] then None else Some(Decimals(whole, frac))
  }

  /** The digits after a leading '.', if any. */
  function Fraction(rest: string): (r: string)
    ensures rest == [] ==> r == []
  {
    if rest != [] && rest[0] == '.' then rest[1..][..DigitRun(rest[1..])] else []
  }

  /** The value of `whole.frac`. */
  function Decimals(whole: string, frac: string): real
  {
    Number(whole) as real + Number(frac) as real / Pow10(|frac|) as real
  }

  /** A run of digits reads back as its decimal value. */
  lemma ParseDigits(s: string)
    requires s != [] && forall i :: 0 <= i < |s| ==> IsDigit(s[i])
    ensures ParseFloat(s) == Some(Number(s) as real)
  {
    DigitNotSpace(s[0]);
    assert TrimStart(s) == s;
    UnsignedDigits(s);
  }

  lemma UnsignedDigits(s: string)
    requires s != [] && forall i :: 0 <= i < |s| ==> IsDigit(s[i])
    ensures ParseUnsigned(s) == Some(Number(s) as real)
  {
    DigitRunAll(s);
    assert s[..DigitRun(s)] == s;
    assert s[DigitRun(s)..] == [];
    assert Decimals(s, []) == Number(s) as real by {
      assert Number([]) == 0 && Pow10(0) == 1;
    }
  }

  /** A run of digits followed by a non-digit is read up to the non-digit. */
  lemma {:induction false} DigitRunPrefix(d: string, x: string)
    requires forall i :: 0 <= i < |d| ==> IsDigit(d[i])
    requires x == [] || !IsDigit(x[0])
    ensures DigitRun(d + x) == |d|
    decreases |d|
  {
    if d != [] {
      assert (d + x)[1..] == d[1..] + x;
      DigitRunPrefix(d[1..], x);
    }
  }

  /** Digits, then a '.' and digits, then a non-digit: the unsigned value. */
  lemma UnsignedFraction(whole: string, frac: string, rest: string)
    requires forall i :: 0 <= i < |whole| ==> IsDigit(whole[i])
    requires forall i :: 0 <= i < |frac| ==> IsDigit(frac[i])
    requires whole != [] || frac != []
    requires rest == [] || !IsDigit(rest[0])
    ensures ParseUnsigned(whole + "." + frac + rest) == Some(Decimals(whole, frac))
  {
    var u := whole + "." + frac + rest;
    var tail := "." + frac + rest;
    assert u == whole + tail;
    DigitRunPrefix(whole, tail);
    assert u[..|whole|] == whole && u[|whole|..] == tail;
    assert tail[1..] == frac + rest;
    DigitRunPrefix(frac, rest);
    assert (frac + rest)[..|frac|] == frac;
  }

  /** Digits, then neither a digit nor a '.': the unsigned value. */
  lemma UnsignedWhole(whole: string, rest: string)
    requires whole != [] && forall i :: 0 <= i < |whole| ==> IsDigit(whole[i])
    requires rest == [] || (!IsDigit(rest[0]) && rest[0] != '.')
    ensures ParseUnsigned(whole + rest) == Some(Decimals(whole, []))
  {
    DigitRunPrefix(whole, rest);
    assert (whole + rest)[..|whole|] == whole && (whole + rest)[|whole|..] == rest;
  }

  /** Leading white space is skipped and the sign read before the digits:
      whatever the unsigned part reads, `parseFloat` gives it with the sign
      applied. */
  lemma ParseFromSign(ws: string, sign: string, u: string, x: real)
    requires forall i :: 0 <= i < |ws| ==> IsSpace(ws[i])
    requires sign == "" || sign == "+" || sign == "-"
    requires u != [] && !IsSpace(u[0]) && u[0] != '+' && u[0] != '-'
    requires ParseUnsigned(u) == Some(x)
    ensures ParseFloat(ws + (sign + u)) == Some(if sign == "-" then -x else x)
  {
    var t := sign + u;
    assert !IsSpace(t[0]) by {
      if sign == "" {
        assert t == u;
      } else {
        assert t[0] == sign[0];
      }
    }
    AfterSpaces(ws, t);
    SignThenDigits(sign, u, x);
  }

  /** Leading white space is skipped. */
  lemma AfterSpaces(ws: string, t: string)
    requires forall i :: 0 <= i < |ws| ==> IsSpace(ws[i])
    requires t != [] && !IsSpace(t[0])
    ensures ParseFloat(ws + t) == ParseSigned(t)
  {
    SkipLeading(ws, t);
  }

  lemma SignThenDigits(sign: string, u: string, x: real)
    requires sign == "" || sign == "+" || sign == "-"
    requires u != [] && u[0] != '+' && u[0] != '-'
    requires ParseUnsigned(u) == Some(x)
    ensures ParseSigned(sign + u) == Some(if sign == "-" then -x else x)
  {
    if sign != "" {
      assert (sign + u)[0] == sign[0] && (sign + u)[1..] == u;
    } else {
      assert sign + u == u;
    }
  }

  lemma {:induction false} SkipLeading(ws: string, t: string)
    requires forall i :: 0 <= i < |ws| ==> IsSpace(ws[i])
    requires t != [] && !IsSpace(t[0])
    ensures TrimStart(ws + t) == t
    decreases |ws|
  {
    if ws != [] {
      assert (ws + t)[1..] == ws[1..] + t;
      SkipLeading(ws[1..], t);
    }
  }

  lemma DigitNotSpace(c: char)
    requires IsDigit(c)
    ensures !IsSpace(c)
  {
  }

  lemma DigitRunAll(s: string)
    requires forall i :: 0 <= i < |s| ==> IsDigit(s[i])
    ensures DigitRun(s) == |s|
  {
  }
}
