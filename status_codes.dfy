/**
 * The status-code formatter of the crate: a u16 HTTP status code becomes the
 * text of the `status` label. Codes accepted by Rocket's `Status::from_code`
 * are looked up in a packed table of 3-digit decimals, all others are
 * rendered with `to_string`. The point of the module is that both paths give
 * the plain decimal rendering of the code.
 */
module StatusCodes {
  import opened Wrappers

  /** Rust's `u16`. */
  newtype u16 = x: int | 0 <= x < 0x1_0000

  predicate IsDigit(c: char) {
    '0' <= c <= '9'
  }

  /** The ASCII digit for `d`. */
  function Digit(d: nat): (c: char)
    requires d < 10
    ensures IsDigit(c) && c as int - '0' as int == d
  {
    ('0' as int + d) as char
  }

  /** Decimal rendering of `n` without leading zeros: Rust's `to_string` on an unsigned integer. */
  function Decimal(n: nat): (s: string)
    ensures |s| >= 1
    ensures forall i :: 0 <= i < |s| ==> IsDigit(s[i])
    ensures |s| > 1 ==> s[0] != '0'
    ensures n < 10 <==> |s| == 1
  {
    if n < 10 then [Digit(n)] else Decimal(n / 10) + [Digit(n % 10)]
  }

  /** The number a string of decimal digits denotes: the reference reading of `Decimal`. */
  function ValueOf(s: string): nat
    requires forall i :: 0 <= i < |s| ==> IsDigit(s[i])
  {
    if s == [] then 0
    else
      assert IsDigit(s[|s| - 1]);
      ValueOf(s[..|s| - 1]) * 10 + (s[|s| - 1] as int - '0' as int)
  }

  /** Reading back the rendering gives the number: `Decimal` loses nothing. */
  lemma {:induction false} DecimalRoundTrip(n: nat)
    ensures ValueOf(Decimal(n)) == n
  {
    var s := Decimal(n);
    if n >= 10 {
      DecimalRoundTrip(n / 10);
      assert s[..|s| - 1] == Decimal(n / 10);
    }
  }

  /** Two codes share a label only if they are the same code. */
  lemma DecimalInjective(a: nat, b: nat)
    ensures Decimal(a) == Decimal(b) <==> a == b
  {
    if Decimal(a) == Decimal(b) {
      DecimalRoundTrip(a);
      DecimalRoundTrip(b);
    }
  }

  /** A code in [100, 999] renders as exactly its three digits. */
  lemma ThreeDigits(c: nat)
    requires 100 <= c <= 999
    ensures Decimal(c) == [Digit(c / 100), Digit(c / 10 % 10), Digit(c % 10)]
  {
    assert c / 10 / 10 == c / 100;
    assert Decimal(c / 10) == [Digit(c / 100), Digit(c / 10 % 10)];
  }

  /** The 3-digit decimals of the codes `lo .. hi - 1`, packed one after the other. */
  function PackedCodes(lo: nat, hi: nat): string
    requires lo <= hi
    decreases hi - lo
  {
    if lo == hi then [] else PackedCodes(lo, hi - 1) + Decimal(hi - 1)
  }

  lemma {:induction false} PackedCodesLength(lo: nat, hi: nat)
    requires 100 <= lo <= hi <= 1000
    ensures |PackedCodes(lo, hi)| == 3 * (hi - lo)
    decreases hi - lo
  {
    if lo < hi {
      PackedCodesLength(lo, hi - 1);
      ThreeDigits(hi - 1);
    }
  }

  lemma {:induction false} PackedCodesSlice(lo: nat, hi: nat, c: nat)
    requires 100 <= lo <= c < hi <= 1000
    ensures |PackedCodes(lo, hi)| == 3 * (hi - lo)
    ensures PackedCodes(lo, hi)[3 * (c - lo) .. 3 * (c - lo) + 3] == Decimal(c)
    decreases hi - lo
  {
    PackedCodesLength(lo, hi);
    PackedCodesLength(lo, hi - 1);
    var prefix := PackedCodes(lo, hi - 1);
    assert PackedCodes(lo, hi) == prefix + Decimal(hi - 1);
    if c == hi - 1 {
      ThreeDigits(c);
      assert PackedCodes(lo, hi)[|prefix|..] == Decimal(hi - 1);
    } else {
      PackedCodesSlice(lo, hi - 1, c);
      assert PackedCodes(lo, hi)[3 * (c - lo) .. 3 * (c - lo) + 3] == prefix[3 * (c - lo) .. 3 * (c - lo) + 3];
    }
  }

  lemma {:induction false} PackedCodesAreDigits(lo: nat, hi: nat)
    requires lo <= hi
    ensures forall i :: 0 <= i < |PackedCodes(lo, hi)| ==> IsDigit(PackedCodes(lo, hi)[i])
    decreases hi - lo
  {
    if lo < hi {
      PackedCodesAreDigits(lo, hi - 1);
    }
  }

  /** `CODE_DIGITS`: the packed 3-digit decimals of the codes 100 to 999. */
  const CodeDigits: string := PackedCodes(100, 1000)

  /** The table holds 900 three-character entries of ASCII digits. */
  lemma CodeDigitsShape()
    ensures |CodeDigits| == 2700
    ensures forall i :: 0 <= i < |CodeDigits| ==> IsDigit(CodeDigits[i])
  {
    PackedCodesLength(100, 1000);
    PackedCodesAreDigits(100, 1000);
  }

  /** Every offset `(code - 100) * 3` the formatter computes is in bounds and holds the code's decimal. */
  lemma CodeDigitsEntry(code: nat)
    requires 100 <= code <= 999
    ensures (code - 100) * 3 + 3 <= |CodeDigits|
    ensures CodeDigits[(code - 100) * 3 .. (code - 100) * 3 + 3] == Decimal(code)
  {
    PackedCodesSlice(100, 1000, code);
  }

  /** Rocket's `Status`: a numeric HTTP status code. */
  datatype Status = Status(code: u16)

  /** A `Status` that came out of `Status::from_code`, whose code is in [100, 999]. */
  type KnownStatus = s: Status | 100 <= s.code <= 999 witness Status(100)

  /**
   * Rocket's `Status::from_code`, which this crate calls but does not define:
   * any function that, when it accepts a code, returns a `Status` holding
   * that code and only accepts codes in [100, 999].
   */
  type StatusParser = f: u16 -> Option<Status>
    | forall c: u16 :: f(c).Some? ==> f(c).value.code == c && 100 <= c <= 999
    witness (c: u16) => None

  /** `status_as_str`: slice the packed table at `(code - 100) * 3`. */
  function StatusAsStr(s: KnownStatus): (r: string)
    ensures r == Decimal(s.code as nat)
  {
    var offset := (s.code - 100) as int * 3;
    CodeDigitsEntry(s.code as nat);
    CodeDigits[offset .. offset + 3]
  }

  /** `StatusCode`: a code Rocket knows, kept as a `Status`, or any other code kept as text. */
  datatype StatusCode = Standard(status: KnownStatus) | NonStandard(text: string)
  {
    /** `StatusCode::as_str`. */
    function AsStr(): (r: string)
      ensures Standard? ==> r == Decimal(status.code as nat)
      ensures NonStandard? ==> r == text
    {
      match this
      case Standard(s) => StatusAsStr(s)
      case NonStandard(t) => t
    }
  }

  /** `From<u16> for StatusCode`: the table path when `from_code` accepts the code, `to_string` otherwise. */
  function FromCode(code: u16, fromCode: StatusParser): (r: StatusCode)
    ensures r.Standard? <==> fromCode(code).Some?
    ensures r.AsStr() == Decimal(code as nat)
  {
    match fromCode(code)
    case Some(s) => Standard(s)
    case None => NonStandard(Decimal(code as nat))
  }

  /** Codes 200 and 1010: 200 takes the table path of a parser that accepts it, 1010 always takes the fallback. */
  lemma FormatterExamples(fromCode: StatusParser)
    ensures FromCode(200, fromCode).AsStr() == "200"
    ensures FromCode(1010, fromCode).NonStandard? && FromCode(1010, fromCode).AsStr() == "1010"
  {
  }
}
