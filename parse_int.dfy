/**
 * JavaScript's `parseInt` in base ten, as the launcher applies it to the
 * log level: an optional sign, then the longest run of decimal digits;
 * no digits means NaN.
 */
module JsParseInt {
  import opened Wrappers
  import opened Decimal

  /** The longest run of digits at the start of `s`. */
  function DigitPrefix(s: string): (d: string)
    ensures |d| <= |s| && d == s[..|d|] && AllDigits(d)
    ensures |d| < |s| ==> !IsDigit(s[|d|])
  {
    if s == [] || !IsDigit(s[0]) then [] else [s[0]] + DigitPrefix(s[1..])
  }

  /** `parseInt(s)`; `None` stands for NaN. */
  function ParseInt(s: string): (r: Option<int>)
    ensures s == [] || (!IsDigit(s[0]) && s[0] != '-' && s[0] != '+') ==> r.None?
    ensures s != [] && IsDigit(s[0]) ==> r.Some? && r.value >= 0
  {
    var signed := s != [] && (s[0] == '-' || s[0] == '+');
    var digits := DigitPrefix(if signed then s[1..] else s);
    if digits == [] then None
    else if signed && s[0] == '-' then Some(-(Value(digits) as int))
    else Some(Value(digits))
  }

  /** `String(n)` for an integer. */
  function IntToString(n: int): string {
    if n < 0 then "-" + ToDecimal(-n) else ToDecimal(n)
  }

  lemma DigitPrefixOfDigits(digits: string, tail: string)
    requires AllDigits(digits)
    requires tail == [] || !IsDigit(tail[0])
    ensures DigitPrefix(digits + tail) == digits
  {
    var s := digits + tail;
    var d := DigitPrefix(s);
    assert forall i :: 0 <= i < |digits| ==> IsDigit(s[i]);
    assert |digits| < |s| ==> !IsDigit(s[|digits|]);
    assert |d| == |digits|;
    assert d == s[..|digits|] == digits;
  }

  /** A digit run followed by anything that is not a digit reads as the run: "2abc" is 2. */
  lemma ParseIntIgnoresTail(digits: string, tail: string)
    requires digits != [] && AllDigits(digits)
    requires tail == [] || !IsDigit(tail[0])
    ensures ParseInt(digits + tail) == Some(Value(digits))
  {
    DigitPrefixOfDigits(digits, tail);
    assert IsDigit((digits + tail)[0]);
  }

  /** Reading back what `String(n)` writes gives `n`. */
  lemma ParseIntRoundTrip(n: int)
    ensures ParseInt(IntToString(n)) == Some(n)
  {
    if n < 0 {
      var s := IntToString(n);
      assert s[1..] == ToDecimal(-n);
      DigitPrefixOfDigits(ToDecimal(-n), []);
      assert ToDecimal(-n) + [] == ToDecimal(-n);
    } else {
      ParseIntIgnoresTail(ToDecimal(n), []);
      assert ToDecimal(n) + [] == ToDecimal(n);
    }
  }

  /** After an explicit sign, the digit run is read and negated for "-". */
  lemma ParseIntAfterSign(sign: char, digits: string, tail: string)
    requires sign == '+' || sign == '-'
    requires digits != [] && AllDigits(digits)
    requires tail == [] || !IsDigit(tail[0])
    ensures ParseInt([sign] + digits + tail) ==
      Some(if sign == '-' then -(Value(digits) as int) else Value(digits))
  {
    var s := [sign] + digits + tail;
    assert s[0] == sign;
    assert s[1..] == digits + tail;
    DigitPrefixOfDigits(digits, tail);
  }

  /**
   * A sign ("", "+" or "-") before a digit run followed by a non-digit tail
   * reads as the run's value, negated after "-".
   */
  lemma ParseIntSigned(sign: string, digits: string, tail: string)
    requires sign == "" || sign == "+" || sign == "-"
    requires digits != [] && AllDigits(digits)
    requires tail == [] || !IsDigit(tail[0])
    ensures ParseInt(sign + digits + tail) ==
      Some(if sign == "-" then -(Value(digits) as int) else Value(digits))
  {
    if sign == "" {
      assert sign + digits + tail == digits + tail;
      ParseIntIgnoresTail(digits, tail);
    } else {
      assert sign == [sign[0]];
      ParseIntAfterSign(sign[0], digits, tail);
    }
  }

  /** A sign with no digit right after it is NaN: "-", "+", "-x", "+-1". */
  lemma ParseIntSignWithoutDigits(sign: string, rest: string)
    requires sign == "+" || sign == "-"
    requires rest == [] || !IsDigit(rest[0])
    ensures ParseInt(sign + rest).None?
  {
    assert (sign + rest)[1..] == rest;
  }

  /** Signed and padded spellings, and signs that are not followed by digits. */
  lemma ParseIntSignExamples()
    ensures ParseInt("+5") == Some(5)
    ensures ParseInt("-5abc") == Some(-5)
    ensures ParseInt("-007") == Some(-7)
    ensures ParseInt("-").None? && ParseInt("+").None? && ParseInt("-x").None?
  {
    ParseIntSigned("+", "5", []);
    assert "+" + "5" + [] == "+5";
    assert Value("5") == 5 by {
      assert "5"[..0] == "";
    }
    ParseIntSigned("-", "5", "abc");
    assert "-" + "5" + "abc" == "-5abc";
    ParseIntSigned("-", "007", []);
    assert "-" + "007" + [] == "-007";
    assert Value("007") == 7 by {
      assert "007"[..2] == "00" && "00"[..1] == "0" && "0"[..0] == "";
    }
    ParseIntSignWithoutDigits("-", []);
    ParseIntSignWithoutDigits("+", []);
    ParseIntSignWithoutDigits("-", "x");
    assert "-" + [] == "-" && "+" + [] == "+" && "-" + "x" == "-x";
  }
}
