/**
 * The moving-average interval text field, shared by both canvas versions
 * (src/modules/DrawingCanvas/index.ts lines 72-87 and
 * src/modules/DrawingCanvas/index.tsx lines 94-109): the input's text is read
 * with `parseInt` (section 19.2.5 of ECMA-262, radix 10 only) and a NaN,
 * non-finite or negative result resets the interval to 0.
 */
module IntervalInput {
  import opened Wrappers

  /** The `target` of an input event: an `<input>` element with its text, or any other node. */
  datatype Target = InputElement(value: string) | OtherTarget

  /** The white space and line terminators `parseInt` strips from the front (the ASCII ones, NBSP, LS, PS, BOM). */
  predicate IsWhiteSpace(c: char)
  {
    c == ' ' || c == '\t' || c == '\n' || c == '\r' || c == '\U{000B}' || c == '\U{000C}'
      || c == '\U{00A0}' || c == '\U{2028}' || c == '\U{2029}' || c == '\U{FEFF}'
  }

  predicate IsDigit(c: char) { '0' <= c <= '9' }

  predicate AllDigits(s: string) { forall k :: 0 <= k < |s| ==> IsDigit(s[k]) }

  /** The text with its leading white space removed. */
  function TrimStart(s: string): (r: string)
    ensures r == [] || !IsWhiteSpace(r[0])
  {
    if |s| > 0 && IsWhiteSpace(s[0]) then TrimStart(s[1..]) else s
  }

  /** The longest prefix made of decimal digits. */
  function DigitPrefix(s: string): (r: string)
    ensures AllDigits(r)
  {
    if |s| > 0 && IsDigit(s[0]) then [s[0]] + DigitPrefix(s[1..]) else []
  }

  function DigitValue(c: char): nat
    requires IsDigit(c)
  {
    c as int - '0' as int
  }

  /** The number a string of decimal digits denotes, most significant first. */
  function DigitsValue(s: string): nat
    requires AllDigits(s)
  {
    if s == [] then 0 else DigitsValue(s[..|s| - 1]) * 10 + DigitValue(s[|s| - 1])
  }

  /**
   * `parseInt(text)` with radix 10: skip leading white space, take an optional
   * sign, then the longest run of digits; no digit at all is NaN (`None`).
   */
  function ParseInt(text: string): (r: Option<int>)
    ensures r.Some? ==> exists k :: 0 <= k < |text| && IsDigit(text[k])
    ensures r.Some? && r.value < 0 ==> |TrimStart(text)| > 0 && TrimStart(text)[0] == '-'
  {
    var t := TrimStart(text);
    TrimStartIsSuffix(text);
    assert forall k :: 0 <= k < |t| ==> t[k] == text[|text| - |t| + k];
    ParseSigned(t)
  }

  /** `parseInt` after the white space: an optional sign, then the digits up to the first non-digit. */
  function ParseSigned(t: string): (r: Option<int>)
    ensures r.Some? ==> exists k :: 0 <= k < |t| && IsDigit(t[k])
    ensures r.Some? && r.value < 0 ==> |t| > 0 && t[0] == '-'
  {
    var sign := if |t| > 0 && t[0] == '-' then -1 else 1;
    var u := if |t| > 0 && (t[0] == '-' || t[0] == '+') then t[1..] else t;
    var z := DigitPrefix(u);
    assert z != [] ==> IsDigit(u[0]) && u[0] == t[|t| - |u|];
    if z == [] then None else Some(sign * DigitsValue(z))
  }

  /** The interval after an input event whose target is `target` (`None`: no event or no target). */
  function NextInterval(current: int, target: Option<Target>): (r: int)
    ensures (target.Some? && target.value.InputElement?) ==> r >= 0
    ensures !(target.Some? && target.value.InputElement?) ==> r == current
  {
    match target
    case None => current
    case Some(OtherTarget) => current
    case Some(InputElement(value)) =>
      match ParseInt(value)
      case None => 0
      case Some(n) => if n < 0 then 0 else n
  }

  /** The decimal text of a natural number, without leading zeros. */
  function Decimal(n: nat): (r: string)
    ensures |r| > 0 && AllDigits(r)
  {
    if n < 10 then [('0' as int + n) as char]
    else Decimal(n / 10) + [('0' as int + n % 10) as char]
  }

  lemma {:induction false} DecimalValue(n: nat)
    ensures DigitsValue(Decimal(n)) == n
  {
    if n >= 10 {
      var d := Decimal(n);
      assert d[..|d| - 1] == Decimal(n / 10);
      DecimalValue(n / 10);
    }
  }

  lemma {:induction false} DigitPrefixStopsAtNonDigit(d: string, rest: string)
    requires AllDigits(d)
    requires rest == [] || !IsDigit(rest[0])
    ensures DigitPrefix(d + rest) == d
  {
    if d != [] {
      assert (d + rest)[1..] == d[1..] + rest;
      DigitPrefixStopsAtNonDigit(d[1..], rest);
    }
  }

  /** Trimming removes a run of white space from the front and nothing else. */
  lemma {:induction false} TrimStartIsSuffix(s: string)
    ensures |TrimStart(s)| <= |s| && TrimStart(s) == s[|s| - |TrimStart(s)|..]
    ensures forall k :: 0 <= k < |s| - |TrimStart(s)| ==> IsWhiteSpace(s[k])
  {
    if |s| > 0 && IsWhiteSpace(s[0]) {
      TrimStartIsSuffix(s[1..]);
    }
  }

  /** `DigitPrefix` is the longest prefix of digits: it is a prefix, and what follows it is not a digit. */
  lemma {:induction false} DigitPrefixIsLongest(s: string)
    ensures |DigitPrefix(s)| <= |s| && DigitPrefix(s) == s[..|DigitPrefix(s)|]
    ensures |DigitPrefix(s)| == |s| || !IsDigit(s[|DigitPrefix(s)|])
  {
    if |s| > 0 && IsDigit(s[0]) {
      DigitPrefixIsLongest(s[1..]);
    }
  }

  /** Trimming skips a run of white space up to the first character that is not white space. */
  lemma {:induction false} TrimStartSkips(ws: string, t: string)
    requires forall k :: 0 <= k < |ws| ==> IsWhiteSpace(ws[k])
    requires t != [] && !IsWhiteSpace(t[0])
    ensures TrimStart(ws + t) == t
  {
    if ws == [] {
      assert ws + t == t;
    } else {
      assert (ws + t)[0] == ws[0];
      assert (ws + t)[1..] == ws[1..] + t;
      TrimStartSkips(ws[1..], t);
    }
  }

  /**
   * `parseInt` on white space, an optional sign, digits and a tail that does
   * not start with a digit: the signed value of the digits. The interval then
   * becomes that value, or 0 when the sign is a minus.
   */
  lemma SignedDigitsInterval(current: int, ws: string, sign: string, d: string, rest: string)
    requires forall k :: 0 <= k < |ws| ==> IsWhiteSpace(ws[k])
    requires sign == "" || sign == "+" || sign == "-"
    requires d != [] && AllDigits(d)
    requires rest == [] || !IsDigit(rest[0])
    ensures ParseInt(ws + sign + d + rest) == Some((if sign == "-" then -1 else 1) * DigitsValue(d))
    ensures NextInterval(current, Some(InputElement(ws + sign + d + rest)))
         == if sign == "-" then 0 else DigitsValue(d)
  {
    var t := sign + (d + rest);
    SignedDigitsValue(sign, d, rest);
    assert TrimStart(ws + t) == t by {
      assert t[0] == if sign == "" then d[0] else sign[0];
      TrimStartSkips(ws, t);
    }
    Regroup(ws, sign, d, rest);
  }

  lemma Regroup(a: string, b: string, c: string, e: string)
    ensures a + b + c + e == a + (b + (c + e))
  {
  }

  /** An optional sign, digits, then a tail that does not start with a digit: the signed value of the digits. */
  lemma SignedDigitsValue(sign: string, d: string, rest: string)
    requires sign == "" || sign == "+" || sign == "-"
    requires d != [] && AllDigits(d)
    requires rest == [] || !IsDigit(rest[0])
    ensures ParseSigned(sign + (d + rest)) == Some((if sign == "-" then -1 else 1) * DigitsValue(d))
  {
    var u := d + rest;
    var t := sign + u;
    DigitPrefixStopsAtNonDigit(d, rest);
    assert u[0] == d[0];
    if sign == "" {
      assert t == u;
    } else {
      assert t[0] == sign[0] && t[1..] == u;
    }
  }

  /** `parseInt` reads back the decimal text of a number and stops at the first character that is not a digit. */
  lemma ParseDecimalPrefix(n: nat, rest: string)
    requires rest == [] || !IsDigit(rest[0])
    ensures ParseInt(Decimal(n) + rest) == Some(n as int)
  {
    DecimalValue(n);
    SignedDigitsInterval(0, "", "", Decimal(n), rest);
    assert "" + "" + Decimal(n) + rest == Decimal(n) + rest;
  }

  /** A leading minus sign negates the number read. */
  lemma ParseNegativeDecimalPrefix(n: nat, rest: string)
    requires rest == [] || !IsDigit(rest[0])
    ensures ParseInt("-" + Decimal(n) + rest) == Some(-(n as int))
  {
    DecimalValue(n);
    SignedDigitsInterval(0, "", "-", Decimal(n), rest);
    assert "" + "-" + Decimal(n) + rest == "-" + Decimal(n) + rest;
  }

  /** Typing a number's decimal text sets the interval to that number, whatever it was. */
  lemma DecimalSetsInterval(current: int, n: nat)
    ensures NextInterval(current, Some(InputElement(Decimal(n)))) == n
  {
    DecimalValue(n);
    SignedDigitsInterval(current, "", "", Decimal(n), []);
    assert "" + "" + Decimal(n) + [] == Decimal(n);
  }

  /** A negative number resets the interval to 0 rather than keeping the previous value. */
  lemma NegativeResetsInterval(current: int, n: nat)
    ensures NextInterval(current, Some(InputElement("-" + Decimal(n)))) == 0
  {
    SignedDigitsInterval(current, "", "-", Decimal(n), []);
    assert "" + "-" + Decimal(n) + [] == "-" + Decimal(n);
  }

  /** Examples of the general rule: leading space, a plus sign, leading zeros and a unit suffix. */
  lemma IntervalTextExamples(current: int)
    ensures NextInterval(current, Some(InputElement(" +07"))) == 7
    ensures NextInterval(current, Some(InputElement("-5px"))) == 0
  {
    SignedDigitsInterval(current, " ", "+", "07", "");
    assert " " + "+" + "07" + "" == " +07";
    assert DigitsValue("07") == 7 by { assert "07"[..1] == "0"; }
    SignedDigitsInterval(current, "", "-", "5", "px");
    assert "" + "-" + "5" + "px" == "-5px";
  }

  /** Text with no digits after the white space and sign (an empty field, say) is NaN and resets the interval to 0. */
  lemma NoDigitsResetsInterval(current: int, text: string)
    requires var t := TrimStart(text);
             var u := if |t| > 0 && (t[0] == '-' || t[0] == '+') then t[1..] else t;
             u == [] || !IsDigit(u[0])
    ensures ParseInt(text) == None
    ensures NextInterval(current, Some(InputElement(text))) == 0
  {
  }
}
