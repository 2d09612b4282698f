/**
 * `readMetadataIntValue`: the tolerant reader behind the `priority` and
 * `weight` fields of a credential file.
 */
module MetadataInt {
  import opened Wrappers
  import opened Numbers
  import opened Text
  import opened Json

  /** Go's `float64(maxInt)`: 2^63 - 1 rounded to the nearest float64, which is 2^63. */
  const MaxIntAsFloat: int := 0x8000_0000_0000_0000

  /**
   * The float64 branch as written: the bounds are compared as float64, so
   * the upper bound is 2^63, not 2^63 - 1. The value returned is the one the
   * code hands to `int(v)`.
   */
  function FloatToIntAsWritten(f: Float): (r: (int, bool))
    ensures r.1 ==> f.Whole? && r.0 == f.value
    ensures !r.1 ==> r.0 == 0
  {
    match f
    case Whole(v) => if v > MaxIntAsFloat || v < MinInt then (0, false) else (v, true)
    case _ => (0, false)
  }

  /** A float64 of exactly 2^63 passes the check as written, yet no 64-bit `int` holds it. */
  lemma FloatUpperBoundAdmitsTwoToThe63()
    ensures FloatToIntAsWritten(Whole(MaxIntAsFloat)) == (MaxIntAsFloat, true)
    ensures MaxIntAsFloat > MaxInt
  {
  }

  /**
   * The float64 branch as intended: NaN, infinities and fractions are
   * rejected, and a whole value is accepted exactly when it fits in an `int`.
   */
  function FloatToInt(f: Float): (r: (Int64, bool))
    ensures r.1 <==> f.Whole? && MinInt <= f.value <= MaxInt
    ensures r.1 ==> r.0 == f.value
    ensures !r.1 ==> r.0 == 0
  {
    match f
    case Whole(v) => if v > MaxInt || v < MinInt then (0, false) else (v, true)
    case _ => (0, false)
  }

  /** The correction changes the outcome for one input only: a whole float of 2^63. */
  lemma FloatToIntDiffersOnlyAtTwoToThe63(f: Float)
    ensures f != Whole(MaxIntAsFloat) ==> FloatToIntAsWritten(f) == (FloatToInt(f).0 as int, FloatToInt(f).1)
    ensures f == Whole(MaxIntAsFloat) ==> FloatToIntAsWritten(f).1 && !FloatToInt(f).1
  {
  }

  /**
   * `readMetadataIntValue(raw)`: `(value, true)` when `raw` holds an integer
   * that fits in an `int`, `(0, false)` otherwise. Strings are trimmed and
   * read as optionally signed decimals.
   */
  function ReadMetadataIntValue(raw: Value): (r: (Int64, bool))
    ensures !r.1 ==> r.0 == 0
    ensures raw.Null? || raw.Bool? || raw.Array? || raw.Object? ==> !r.1
    ensures raw.GoInt? ==> r == (raw.i, true)
    ensures raw.GoInt64? ==> r == (raw.i64, true)
    ensures raw.GoFloat64? ==> r.1 == (raw.f.Whole? && MinInt <= raw.f.value <= MaxInt)
    ensures raw.Str? && AllSpace(raw.s) ==> !r.1
    ensures raw.Str? && r.1 ==> ParseInt(TrimSpace(raw.s)) == Some(r.0)
    ensures raw.Str? && !AllSpace(raw.s) && ParseInt(TrimSpace(raw.s)).Some? ==> r == (ParseInt(TrimSpace(raw.s)).value, true)
    ensures raw.GoFloat64? && r.1 ==> r.0 == raw.f.value
  {
    match raw
    case Null => (0, false)
    case GoInt(v) => (v, true)
    // Go's int is 64 bits wide, so the range check of the int64 case never rejects.
    case GoInt64(v) => (v, true)
    case GoFloat64(f) => FloatToInt(f)
    case Number(text, asFloat) =>
      (match ParseInt(text)
       case Some(i) => (i, true)
       case None =>
         (match asFloat
          case Some(f) => FloatToInt(f)
          case None => (0, false)))
    case Str(s) =>
      TrimSpaceFacts(s);
      var trimmed := TrimSpace(s);
      if trimmed == "" then (0, false)
      else
        (match ParseInt(trimmed)
         case Some(parsed) => (parsed, true)
         case None => (0, false))
    case _ => (0, false)
  }

  /**
   * Whatever `strconv.Itoa` writes, padded with any white space, reads back
   * as the same integer.
   */
  lemma {:induction false} ReadPaddedDecimal(left: string, n: Int64, right: string)
    requires AllSpace(left) && AllSpace(right)
    ensures ReadMetadataIntValue(Str(left + Itoa(n) + right)) == (n, true)
  {
    var text := Itoa(n);
    assert !IsSpace(text[0]) && !IsSpace(text[|text| - 1]) by {
      if |text| > 1 {
        assert IsDigit(text[1..][|text| - 2]);
      }
    }
    TrimSpacePadded(left, text, right);
    ParseIntItoa(n);
  }

  /** A string that reads successfully is, once trimmed, a signed run of decimal digits. */
  lemma ReadStringShape(s: string)
    requires ReadMetadataIntValue(Str(s)).1
    ensures var t := TrimSpace(s); |t| > 0 && (IsDigit(t[0]) || t[0] == '+' || t[0] == '-') && AllDigits(t[1..])
  {
  }
}
