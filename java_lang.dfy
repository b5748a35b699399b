/**
 * The pieces of the Java runtime that the decorator and the string
 * processor rely on: nullable references, throwables and how a call
 * completes, 64-bit `long` arithmetic, and the decimal text that string
 * concatenation produces for a `long`.
 */
module JavaLang {

  /** A Java reference that may be null. */
  datatype Option<+T> = None | Some(value: T)

  /** Java's 64-bit signed `long`. */
  newtype long = x: int | -0x8000_0000_0000_0000 <= x < 0x8000_0000_0000_0000

  const TWO_TO_THE_64: int := 0x1_0000_0000_0000_0000

  /** True when the exact integer fits in a `long`. */
  predicate InLongRange(x: int) {
    -0x8000_0000_0000_0000 <= x < 0x8000_0000_0000_0000
  }

  /**
   * Java's `a - b` on two `long`s: the exact difference, wrapped around
   * into 64-bit two's complement when it does not fit.
   */
  function LongSub(a: long, b: long): (r: long)
    ensures (r as int - (a as int - b as int)) % TWO_TO_THE_64 == 0
    ensures InLongRange(a as int - b as int) ==> r as int == a as int - b as int
  {
    var d := a as int - b as int;
    if InLongRange(d) then d as long
    else if d < 0 then (d + TWO_TO_THE_64) as long
    else (d - TWO_TO_THE_64) as long
  }

  /**
   * A thrown object: its class and the message `getMessage()` returns
   * (which may be null).
   */
  datatype Throwable = Throwable(className: string, message: Option<string>)

  /**
   * How a Java call completes: it returns a value, it throws an instance
   * of `java.lang.Exception` (which `catch (Exception e)` intercepts), or it
   * throws some other `Throwable`, in practice a `java.lang.Error`, which
   * such a `catch` lets through. The constructor, not the `className` of the
   * thrown object, decides which of the two a throw is: `className` is only
   * the name carried along for the reader.
   */
  datatype Outcome<+R> = Ok(value: R) | Threw(exception: Throwable) | ThrewOther(error: Throwable)

  /** The text string concatenation produces for a possibly-null `String`. */
  function StringValueOf(s: Option<string>): string {
    match s
    case None => "null"
    case Some(t) => t
  }

  predicate IsDigit(c: char) {
    '0' <= c <= '9'
  }

  function DigitChar(d: nat): (c: char)
    requires d < 10
    ensures IsDigit(c) && c as int - '0' as int == d
  {
    (d + '0' as int) as char
  }

  function DigitValue(c: char): nat
    requires IsDigit(c)
  {
    c as int - '0' as int
  }

  /** The decimal digits of `n`, most significant first, without leading zeros. */
  function NatToString(n: nat): (s: string)
    ensures |s| >= 1
    ensures forall i :: 0 <= i < |s| ==> IsDigit(s[i])
    ensures |s| > 1 ==> s[0] != '0'
  {
    if n < 10 then [DigitChar(n)] else NatToString(n / 10) + [DigitChar(n % 10)]
  }

  /** `Long.toString(n)`, the text `"" + n` produces: a minus sign for negatives, then the digits. */
  function LongToString(n: long): (s: string)
    ensures |s| >= 1
    ensures s[0] == '-' <==> n < 0
    ensures forall i :: (if n < 0 then 1 else 0) <= i < |s| ==> IsDigit(s[i])
    ensures n < 0 ==> |s| >= 2
    ensures var digits := if n < 0 then s[1..] else s; |digits| > 1 ==> digits[0] != '0'
  {
    if n < 0 then
      var s := "-" + NatToString(-(n as int));
      assert s[1..] == NatToString(-(n as int));
      s
    else NatToString(n as int)
  }

  /** Reads a non-empty run of decimal digits; the partner of NatToString. */
  function ParseDigits(s: string): Option<nat>
    decreases |s|
  {
    if s == [] then None
    else if !IsDigit(s[|s| - 1]) then None
    else if |s| == 1 then Some(DigitValue(s[0]))
    else match ParseDigits(s[..|s| - 1])
      case None => None
      case Some(v) => Some(10 * v + DigitValue(s[|s| - 1]))
  }

  /** Reads an optionally negative decimal integer; the partner of LongToString. */
  function ParseInteger(s: string): Option<int> {
    if |s| > 0 && s[0] == '-' then
      match ParseDigits(s[1..])
      case None => None
      case Some(v) => Some(0 - v as int)
    else
      match ParseDigits(s)
      case None => None
      case Some(v) => Some(v)
  }

  lemma {:induction false} NatToStringRoundTrip(n: nat)
    ensures ParseDigits(NatToString(n)) == Some(n)
  {
    var s := NatToString(n);
    if n >= 10 {
      NatToStringRoundTrip(n / 10);
      assert s[..|s| - 1] == NatToString(n / 10);
    }
  }

  /** The decimal text of a `long` reads back as the same number. */
  lemma LongToStringRoundTrip(n: long)
    ensures ParseInteger(LongToString(n)) == Some(n as int)
  {
    if n < 0 {
      var s := LongToString(n);
      assert s[1..] == NatToString(-(n as int));
      NatToStringRoundTrip(-(n as int));
    } else {
      NatToStringRoundTrip(n as int);
    }
  }

  /** Distinct numbers are printed differently. */
  lemma LongToStringInjective(m: long, n: long)
    ensures LongToString(m) == LongToString(n) <==> m == n
  {
    if LongToString(m) == LongToString(n) {
      LongToStringRoundTrip(m);
      LongToStringRoundTrip(n);
    }
  }
}
