/**
 * `parseMemorySize`: "512M", "1g", "8", "1.5K" to a byte count. An empty or
 * absent string gives no size; anything the pattern
 * `^(\d+(?:\.\d+)?)([KMGT]?)$` (case-insensitive) rejects throws
 * "Invalid memory size format: ..."; otherwise the number is scaled by the
 * unit's multiplier (a bare number means MiB) and floored.
 */
module MemorySize {
  import opened Wrappers
  import opened Decimal

  const KiB: nat := 1024
  const MiB: nat := 1024 * 1024
  const GiB: nat := 1024 * 1024 * 1024
  const TiB: nat := 1024 * 1024 * 1024 * 1024

  /** What `parseMemorySize` returns (`null` or a number) or throws. */
  datatype SizeResult = NoSize | Bytes(bytes: nat) | InvalidFormat(message: string)

  function InvalidSizeMessage(s: string): string {
    "Invalid memory size format: " + s
  }

  /** The letters `[KMGT]` matches under the `i` flag. */
  predicate IsUnitLetter(c: char) {
    c == 'K' || c == 'M' || c == 'G' || c == 'T' || c == 'k' || c == 'm' || c == 'g' || c == 't'
  }

  /** ASCII `toUpperCase` of one character. */
  function UpperChar(c: char): char {
    if 'a' <= c <= 'z' then (c as int - 32) as char else c
  }

  /** ASCII `toUpperCase`; the only letters it is applied to here are unit letters. */
  function UpperAscii(s: string): (u: string)
    ensures |u| == |s|
  {
    if s == [] then [] else [UpperChar(s[0])] + UpperAscii(s[1..])
  }

  /**
   * The regular expression's capture groups: the digits before the point,
   * the digits after it if there is a point, and the unit as typed.
   */
  datatype SizeLiteral = SizeLiteral(whole: string, fraction: Option<string>, unit: string) {

    /** The shape the pattern accepts. */
    predicate Valid() {
      && whole != [] && AllDigits(whole)
      && (fraction.Some? ==> fraction.value != [] && AllDigits(fraction.value))
      && (unit == [] || (|unit| == 1 && IsUnitLetter(unit[0])))
    }

    /** The number as written, with its point if it has one. */
    function Number(): string {
      whole + (if fraction.Some? then "." + fraction.value else [])
    }

    /** The text the literal is read from. */
    function Spelling(): string {
      Number() + unit
    }

    /** Digits after the point (the power of ten the digits are divided by). */
    function Scale(): nat {
      if fraction.Some? then |fraction.value| else 0
    }

    /** All digits with the point removed: the number times ten to the `Scale()`. */
    function Digits(): string {
      whole + fraction.GetOr([])
    }
  }

  /** The multiplier table, including its `'B'` entry. */
  function Multiplier(unit: string): Option<nat> {
    if unit == "" then Some(MiB)
    else if unit == "B" then Some(1)
    else if unit == "K" then Some(KiB)
    else if unit == "M" then Some(MiB)
    else if unit == "G" then Some(GiB)
    else if unit == "T" then Some(TiB)
    else None
  }

  /** Position of the first `.` in `s`, if any. */
  function IndexOfDot(s: string): (r: Option<nat>)
    ensures r.None? ==> forall i :: 0 <= i < |s| ==> s[i] != '.'
    ensures r.Some? ==> r.value < |s| && s[r.value] == '.'
    ensures r.Some? ==> forall i :: 0 <= i < r.value ==> s[i] != '.'
  {
    if s == [] then None
    else if s[0] == '.' then Some(0)
    else match IndexOfDot(s[1..])
      case None => None
      case Some(k) => Some(k + 1)
  }

  /** The trailing `([KMGT]?)` group: a last character that is a unit letter, or nothing. */
  function SplitUnit(s: string): (r: (string, string))
    ensures r.0 + r.1 == s
    ensures r.1 == [] || (|r.1| == 1 && IsUnitLetter(r.1[0]))
  {
    if |s| > 0 && IsUnitLetter(s[|s| - 1]) then (s[..|s| - 1], s[|s| - 1..]) else (s, [])
  }

  /** The `(\d+(?:\.\d+)?)` group: the digits before the point and, if there is one, after it. */
  function MatchNumber(body: string): (r: Option<(string, Option<string>)>)
    ensures r.Some? ==> SizeLiteral(r.value.0, r.value.1, []).Valid()
    ensures r.Some? ==> SizeLiteral(r.value.0, r.value.1, []).Number() == body
  {
    match IndexOfDot(body)
    case None =>
      if body != [] && AllDigits(body) then Some((body, None)) else None
    case Some(k) =>
      var whole, fraction := body[..k], body[k + 1..];
      assert whole + "." + fraction == body;
      if whole != [] && AllDigits(whole) && fraction != [] && AllDigits(fraction)
      then Some((whole, Some(fraction)))
      else None
  }

  /** The regular-expression match: the capture groups, or nothing when `s` does not match. */
  function MatchSize(s: string): (r: Option<SizeLiteral>)
    ensures r.Some? ==> r.value.Valid() && r.value.Spelling() == s
  {
    var (body, unit) := SplitUnit(s);
    match MatchNumber(body)
    case None => None
    case Some((whole, fraction)) => Some(SizeLiteral(whole, fraction, unit))
  }

  /** A digit run before the first point leaves the point's position shifted by the run's length. */
  lemma {:induction false} IndexOfDotAfterDigits(digits: string, rest: string)
    requires AllDigits(digits)
    ensures IndexOfDot(digits + rest) ==
      match IndexOfDot(rest)
      case None => None
      case Some(k) => Some(|digits| + k)
  {
    if digits != [] {
      assert (digits + rest)[1..] == digits[1..] + rest;
      IndexOfDotAfterDigits(digits[1..], rest);
    } else {
      assert digits + rest == rest;
    }
  }

  lemma SplitUnitComplete(number: string, unit: string)
    requires number != [] && IsDigit(number[|number| - 1])
    requires unit == [] || (|unit| == 1 && IsUnitLetter(unit[0]))
    ensures SplitUnit(number + unit) == (number, unit)
  {
    var s := number + unit;
    if unit == [] {
      assert s == number;
    } else {
      assert s[..|s| - 1] == number;
      assert s[|s| - 1..] == unit;
    }
  }

  lemma MatchNumberComplete(whole: string, fraction: Option<string>)
    requires SizeLiteral(whole, fraction, []).Valid()
    ensures MatchNumber(SizeLiteral(whole, fraction, []).Number()) == Some((whole, fraction))
  {
    var body := SizeLiteral(whole, fraction, []).Number();
    match fraction
    case None =>
      IndexOfDotAfterDigits(whole, []);
      assert body == whole + [] == whole;
      assert IndexOfDot(body).None?;
    case Some(f) =>
      IndexOfDotAfterDigits(whole, "." + f);
      assert body == whole + ("." + f);
      assert body[..|whole|] == whole;
      assert body[|whole| + 1..] == f;
  }

  /** Every literal of the accepted shape is matched, with exactly its own capture groups. */
  lemma MatchComplete(lit: SizeLiteral)
    requires lit.Valid()
    ensures MatchSize(lit.Spelling()) == Some(lit)
  {
    var number := lit.Number();
    assert number == SizeLiteral(lit.whole, lit.fraction, []).Number();
    assert IsDigit(number[|number| - 1]);
    SplitUnitComplete(number, lit.unit);
    MatchNumberComplete(lit.whole, lit.fraction);
  }

  /** Upper-casing a unit the pattern accepts always lands in the table, and never on `'B'`. */
  lemma UnitInTable(unit: string)
    requires unit == [] || (|unit| == 1 && IsUnitLetter(unit[0]))
    ensures Multiplier(UpperAscii(unit)).Some?
    ensures UpperAscii(unit) != "B"
  {
    if unit != [] {
      var c := unit[0];
      assert UpperAscii(unit) == [UpperChar(c)];
      assert UpperChar(c) == 'K' || UpperChar(c) == 'M' || UpperChar(c) == 'G' || UpperChar(c) == 'T';
    }
  }

  /** The multiplier of a matched literal. */
  function LiteralMultiplier(lit: SizeLiteral): (m: nat)
    requires lit.Valid()
    ensures m >= 1
  {
    UnitInTable(lit.unit);
    Multiplier(UpperAscii(lit.unit)).value
  }

  /** The exact value of the literal times its multiplier. */
  function ExactScaled(lit: SizeLiteral): nat
    requires lit.Valid()
  {
    assert AllDigits(lit.Digits());
    Value(lit.Digits()) * LiteralMultiplier(lit)
  }

  /**
   * The literal's value times its multiplier, floored: the digits with the
   * point removed stand for the value times ten to the `Scale()`.
   */
  function LiteralBytes(lit: SizeLiteral): (n: nat)
    requires lit.Valid()
    ensures FloorOf(n, ExactScaled(lit), Pow10(lit.Scale()))
  {
    FloorDiv(ExactScaled(lit), Pow10(lit.Scale()))
  }

  /** `q` is `a / d` rounded down, stated without division. */
  predicate FloorOf(q: nat, a: nat, d: nat) {
    q * d <= a < (q + 1) * d
  }

  function ParseMemorySize(size: Option<string>): (r: SizeResult)
    ensures r.NoSize? <==> size.None? || size.value == []
    ensures r.InvalidFormat? <==> size.Some? && size.value != [] && MatchSize(size.value).None?
    ensures r.InvalidFormat? ==> r.message == InvalidSizeMessage(size.value)
    ensures r.Bytes? ==> r.bytes == LiteralBytes(MatchSize(size.value).value)
  {
    if size.None? || size.value == [] then NoSize
    else match MatchSize(size.value)
      case None => InvalidFormat(InvalidSizeMessage(size.value))
      case Some(lit) => Bytes(LiteralBytes(lit))
  }

  /** `Math.floor(a / d)` for exact non-negative operands. */
  function FloorDiv(a: nat, d: nat): (q: nat)
    requires d >= 1
    ensures FloorOf(q, a, d)
  {
    a / d
  }

  lemma MulDivCancel(a: nat, d: nat)
    requires d >= 1
    ensures (a * d) / d == a
  {
    var q, r := (a * d) / d, (a * d) % d;
    assert a * d == q * d + r && 0 <= r < d;
    assert (a - q) * d == r;
  }

  /**
   * A string is rejected exactly when it is non-empty and is the spelling of
   * no literal of the accepted shape.
   */
  lemma InvalidIffNoLiteral(s: string)
    ensures ParseMemorySize(Some(s)).InvalidFormat? <==>
              s != [] && forall lit: SizeLiteral :: lit.Valid() ==> lit.Spelling() != s
  {
    if ParseMemorySize(Some(s)).InvalidFormat? {
      forall lit: SizeLiteral | lit.Valid() ensures lit.Spelling() != s {
        MatchComplete(lit);
      }
    }
  }

  /**
   * A string whose last character is neither a digit nor a unit letter
   * throws: "12B", "12b", "abc", "12X".
   */
  lemma RejectsBadLastChar(s: string)
    requires s != [] && !IsDigit(s[|s| - 1]) && !IsUnitLetter(s[|s| - 1])
    ensures ParseMemorySize(Some(s)) == InvalidFormat(InvalidSizeMessage(s))
  {
    if MatchSize(s).Some? {
      assert false;
    }
  }

  /** The table's `'B'` entry is dead: no string ending in `B` or `b` parses. */
  lemma ByteUnitUnreachable(digits: string)
    ensures ParseMemorySize(Some(digits + "B")).InvalidFormat?
    ensures ParseMemorySize(Some(digits + "b")).InvalidFormat?
  {
    RejectsBadLastChar(digits + "B");
    RejectsBadLastChar(digits + "b");
  }

  /** A whole number N with unit u is N times u's multiplier, exactly. */
  lemma IntegerLiteralSize(lit: SizeLiteral)
    requires lit.Valid() && lit.fraction.None?
    ensures ParseMemorySize(Some(lit.Spelling())) == Bytes(Value(lit.whole) * LiteralMultiplier(lit))
  {
    MatchComplete(lit);
    assert lit.Digits() == lit.whole;
  }

  /** The unit letter's case does not matter. */
  lemma UnitCaseInsensitive(lit: SizeLiteral)
    requires lit.Valid()
    ensures lit.(unit := UpperAscii(lit.unit)).Valid()
    ensures ParseMemorySize(Some(lit.Spelling())) == ParseMemorySize(Some(lit.(unit := UpperAscii(lit.unit)).Spelling()))
  {
    var upper := lit.(unit := UpperAscii(lit.unit));
    assert UpperAscii(upper.unit) == UpperAscii(lit.unit);
    MatchComplete(lit);
    MatchComplete(upper);
  }

  /** With a fraction of `k` zeros, the scaled digits are the whole number's, times ten to the `k`. */
  lemma ZeroFractionExact(whole: string, k: nat, unit: string)
    requires SizeLiteral(whole, None, unit).Valid() && k > 0
    ensures SizeLiteral(whole, Some(Zeros(k)), unit).Valid()
    ensures ExactScaled(SizeLiteral(whole, Some(Zeros(k)), unit))
         == ExactScaled(SizeLiteral(whole, None, unit)) * Pow10(k)
  {
    var lit := SizeLiteral(whole, Some(Zeros(k)), unit);
    assert lit.Digits() == whole + Zeros(k);
    ValueAppendZeros(whole, k);
    var n, m, p := Value(whole), LiteralMultiplier(lit), Pow10(k);
    var plain := SizeLiteral(whole, None, unit);
    assert plain.Digits() == whole;
    assert LiteralMultiplier(plain) == m;
    assert ExactScaled(plain) == n * m;
    assert ExactScaled(lit) == (n * p) * m;
    MulSwap(n, p, m);
  }

  lemma MulSwap(a: nat, b: nat, c: nat)
    ensures (a * b) * c == (a * c) * b
  {
  }

  /** A fraction of zeros changes nothing: "1.000G" is "1G". */
  lemma ZeroFractionIsWhole(whole: string, k: nat, unit: string)
    requires SizeLiteral(whole, None, unit).Valid() && k > 0
    ensures SizeLiteral(whole, Some(Zeros(k)), unit).Valid()
    ensures ParseMemorySize(Some(SizeLiteral(whole, Some(Zeros(k)), unit).Spelling()))
         == ParseMemorySize(Some(SizeLiteral(whole, None, unit).Spelling()))
  {
    var lit := SizeLiteral(whole, Some(Zeros(k)), unit);
    var plain := SizeLiteral(whole, None, unit);
    ZeroFractionExact(whole, k, unit);
    MatchComplete(lit);
    MatchComplete(plain);
    MulDivCancel(ExactScaled(plain), Pow10(k));
    assert plain.Scale() == 0 && lit.Scale() == k;
  }

  /** The launcher's default main memory, "512M", is 512 MiB. */
  lemma DefaultMemorySize()
    ensures ParseMemorySize(Some("512M")) == Bytes(536870912)
  {
    var lit := SizeLiteral("512", None, "M");
    IntegerLiteralSize(lit);
    assert lit.Spelling() == "512M";
    assert UpperAscii("M") == "M";
    assert LiteralMultiplier(lit) == MiB;
    assert Value("512") == 512 by {
      assert "512"[..2] == "51" && "51"[..1] == "5" && "5"[..0] == "";
    }
  }

  /** The launcher's default video memory, "8M", is 8 MiB, and so is a bare "8". */
  lemma DefaultVgaMemorySize()
    ensures ParseMemorySize(Some("8M")) == Bytes(8388608)
    ensures ParseMemorySize(Some("8")) == Bytes(8388608)
  {
    IntegerLiteralSize(SizeLiteral("8", None, "M"));
    IntegerLiteralSize(SizeLiteral("8", None, ""));
    assert UpperAscii("M") == "M";
    assert Value("8") == 8 by {
      assert "8"[..0] == "";
    }
  }

  /** A lower-case unit: "1g" is 1 GiB. */
  lemma LowerCaseGigabyte()
    ensures ParseMemorySize(Some("1g")) == Bytes(1073741824)
  {
    IntegerLiteralSize(SizeLiteral("1", None, "g"));
    assert UpperAscii("g") == "G";
    assert Value("1") == 1 by {
      assert "1"[..0] == "";
    }
  }

  /** The largest unit: "1T" is 1 TiB. */
  lemma OneTerabyte()
    ensures ParseMemorySize(Some("1T")) == Bytes(1099511627776)
  {
    IntegerLiteralSize(SizeLiteral("1", None, "T"));
    assert UpperAscii("T") == "T";
    assert Value("1") == 1 by {
      assert "1"[..0] == "";
    }
  }

  /** "0M" parses to zero bytes, which is not an error. */
  lemma ZeroSize()
    ensures ParseMemorySize(Some("0M")) == Bytes(0)
  {
    IntegerLiteralSize(SizeLiteral("0", None, "M"));
    assert Value("0") == 0 by {
      assert "0"[..0] == "";
    }
  }

  /** A fractional literal is scaled exactly and floored: "1.5K" is 1536 bytes. */
  lemma FractionalKilobytes()
    ensures ParseMemorySize(Some("1.5K")) == Bytes(1536)
  {
    var lit := SizeLiteral("1", Some("5"), "K");
    MatchComplete(lit);
    assert lit.Spelling() == "1.5K";
    assert lit.Digits() == "15";
    assert UpperAscii("K") == "K";
    assert Value("15") == 15 by {
      assert "15"[..1] == "1" && "1"[..0] == "";
    }
  }

  /** Malformed sizes throw, empty or absent ones give no size. */
  lemma ParseMemorySizeEdgeCases()
    ensures ParseMemorySize(Some("")) == NoSize && ParseMemorySize(None) == NoSize
    ensures ParseMemorySize(Some("12B")) == InvalidFormat("Invalid memory size format: 12B")
    ensures ParseMemorySize(Some("abc")).InvalidFormat?
    ensures ParseMemorySize(Some("12X")).InvalidFormat?
  {
    RejectsBadLastChar("12B");
    RejectsBadLastChar("abc");
    RejectsBadLastChar("12X");
  }
}
