/**
 * Decimal text for `u32`, as the tag adapter uses it: `str::parse::<u32>` reads
 * a stored value back and `u32::to_string` writes one.
 *
 * The parse follows Rust's `from_str_radix` for an unsigned type in radix 10:
 * the empty string is `Empty`; a lone sign is `InvalidDigit`; one leading `+`
 * is skipped; then the digits are consumed left to right, each one checked
 * before the running value is multiplied by ten and the digit added, and a
 * step whose value exceeds 4294967295 fails with `PosOverflow`.
 */
module Decimal {
  import opened Wrappers

  const U32_MAX: int := 0xFFFF_FFFF

  /** Rust's `u32`. */
  newtype u32 = x: int | 0 <= x <= 0xFFFF_FFFF

  /** The `IntErrorKind`s an unsigned decimal parse can report. */
  datatype IntErrorKind = Empty | InvalidDigit | PosOverflow

  predicate IsDigit(c: char) {
    '0' <= c <= '9'
  }

  predicate AllDigits(s: string) {
    forall i :: 0 <= i < |s| ==> IsDigit(s[i])
  }

  function DigitValue(c: char): (d: nat)
    requires IsDigit(c)
    ensures d < 10
  {
    c as int - '0' as int
  }

  function DigitChar(d: nat): (c: char)
    requires d < 10
    ensures IsDigit(c) && DigitValue(c) == d
  {
    ('0' as int + d) as char
  }

  /** The text after one optional leading `+`; a `-` is kept, and an unsigned parse rejects it as a digit. */
  function Unsigned(s: string): string {
    if |s| > 0 && s[0] == '+' then s[1..] else s
  }

  /** The value of a digit string appended to `acc`, with no bound on its size. */
  function Value(acc: nat, s: string): nat
    requires AllDigits(s)
    decreases |s|
  {
    if |s| == 0 then acc else Value(acc * 10 + DigitValue(s[0]), s[1..])
  }

  /** The digit loop of the parse: every step checks the digit, then the bound. */
  function Accumulate(acc: u32, s: string): (r: Result<u32, IntErrorKind>)
    ensures r.Err? ==> r.error != Empty
    decreases |s|
  {
    if |s| == 0 then Ok(acc)
    else if !IsDigit(s[0]) then Err(InvalidDigit)
    else
      var next := acc as int * 10 + DigitValue(s[0]);
      if next > U32_MAX then Err(PosOverflow) else Accumulate(next as u32, s[1..])
  }

  /**
   * `str::parse::<u32>`. It accepts exactly an optional `+` followed by one or
   * more ASCII digits whose value fits in 32 bits (leading zeros allowed), and
   * then returns that value.
   */
  function ParseU32(s: string): (r: Result<u32, IntErrorKind>)
    ensures r == Err(Empty) <==> |s| == 0
    ensures r.Ok? <==> |Unsigned(s)| > 0 && AllDigits(Unsigned(s)) && Value(0, Unsigned(s)) <= U32_MAX
    ensures r.Ok? ==> r.value as int == Value(0, Unsigned(s))
  {
    if |s| == 0 then Err(Empty)
    else if |s| == 1 && (s[0] == '+' || s[0] == '-') then Err(InvalidDigit)
    else
      AccumulateChecksFinalValue(0, Unsigned(s));
      Accumulate(0, Unsigned(s))
  }

  /** `u32::to_string`: the canonical decimal form, without sign or leading zeros. */
  function ToDecimal(n: nat): (s: string)
    ensures Canonical(s)
    ensures s == "0" <==> n == 0
    decreases n
  {
    if n < 10 then [DigitChar(n)] else ToDecimal(n / 10) + [DigitChar(n % 10)]
  }

  /** Text in the form `to_string` produces: digits only, no leading zero except in "0". */
  predicate Canonical(s: string) {
    |s| > 0 && AllDigits(s) && (s[0] == '0' ==> |s| == 1)
  }

  /** A run of `k` zero digits. */
  function Zeros(k: nat): (s: string)
    ensures |s| == k && AllDigits(s)
  {
    if k == 0 then "" else "0" + Zeros(k - 1)
  }

  /** Appending digits never makes the value smaller. */
  lemma {:induction false} ValueAtLeast(acc: nat, s: string)
    requires AllDigits(s)
    ensures Value(acc, s) >= acc
    decreases |s|
  {
    if |s| > 0 {
      ValueAtLeast(acc * 10 + DigitValue(s[0]), s[1..]);
    }
  }

  /**
   * The bound checks made after every digit reject exactly the digit strings
   * whose final value is too large, and any string holding a non-digit fails.
   */
  lemma {:induction false} AccumulateChecksFinalValue(acc: u32, s: string)
    ensures AllDigits(s) && Value(acc as nat, s) <= U32_MAX ==> Accumulate(acc, s) == Ok(Value(acc as nat, s) as u32)
    ensures AllDigits(s) && Value(acc as nat, s) > U32_MAX ==> Accumulate(acc, s) == Err(PosOverflow)
    ensures !AllDigits(s) ==> Accumulate(acc, s).Err?
    decreases |s|
  {
    if |s| > 0 && IsDigit(s[0]) {
      var next := acc as int * 10 + DigitValue(s[0]);
      if AllDigits(s) {
        ValueAtLeast(next, s[1..]);
      } else {
        var i :| 0 <= i < |s| && !IsDigit(s[i]);
        assert !IsDigit(s[1..][i - 1]);
      }
      if next <= U32_MAX {
        AccumulateChecksFinalValue(next as u32, s[1..]);
      }
    }
  }

  /** Reading two digit strings one after the other is reading their concatenation. */
  lemma {:induction false} ValueConcat(acc: nat, p: string, q: string)
    requires AllDigits(p) && AllDigits(q)
    ensures AllDigits(p + q)
    ensures Value(acc, p + q) == Value(Value(acc, p), q)
    decreases |p|
  {
    assert AllDigits(p + q) by {
      forall i | 0 <= i < |p + q| ensures IsDigit((p + q)[i]) {
        if i < |p| { assert (p + q)[i] == p[i]; } else { assert (p + q)[i] == q[i - |p|]; }
      }
    }
    if |p| == 0 {
      assert p + q == q;
    } else {
      assert (p + q)[1..] == p[1..] + q;
      ValueConcat(acc * 10 + DigitValue(p[0]), p[1..], q);
    }
  }

  /** The text `to_string` writes denotes the number written. */
  lemma {:induction false} ToDecimalValue(n: nat)
    ensures Value(0, ToDecimal(n)) == n
    decreases n
  {
    if n >= 10 {
      ToDecimalValue(n / 10);
      ValueConcat(0, ToDecimal(n / 10), [DigitChar(n % 10)]);
    }
  }

  /** Round trip: `to_string` followed by `parse::<u32>` gives back the number. */
  lemma ParseToDecimal(n: u32)
    ensures ParseU32(ToDecimal(n as nat)) == Ok(n)
  {
    var s := ToDecimal(n as nat);
    ToDecimalValue(n as nat);
    assert Unsigned(s) == s;
  }

  lemma {:induction false} ZerosValue(k: nat)
    ensures Value(0, Zeros(k)) == 0
    decreases k
  {
    if k > 0 {
      assert Zeros(k)[1..] == Zeros(k - 1);
      ZerosValue(k - 1);
    }
  }

  /** The parse is lenient: a leading `+` and any number of leading zeros are accepted and ignored. */
  lemma ParsePadded(plus: bool, zeros: nat, n: u32)
    ensures ParseU32((if plus then "+" else "") + Zeros(zeros) + ToDecimal(n as nat)) == Ok(n)
  {
    var digits := Zeros(zeros) + ToDecimal(n as nat);
    var s := (if plus then "+" else "") + Zeros(zeros) + ToDecimal(n as nat);
    assert s == (if plus then "+" else "") + digits;
    ZerosValue(zeros);
    ToDecimalValue(n as nat);
    ValueConcat(0, Zeros(zeros), ToDecimal(n as nat));
    assert Value(0, digits) == n as nat;
    assert |digits| > 0 && AllDigits(digits);
    if plus {
      assert s[1..] == digits;
    } else {
      assert s == digits;
      assert IsDigit(s[0]);
    }
    assert Unsigned(s) == digits;
  }

  /** Canonical text is the `to_string` of the value it denotes. */
  lemma {:induction false} CanonicalValue(s: string)
    requires Canonical(s)
    ensures ToDecimal(Value(0, s)) == s
    decreases |s|
  {
    if |s| == 1 {
      assert DigitChar(DigitValue(s[0])) == s[0];
    } else {
      var p, c := s[..|s| - 1], s[|s| - 1];
      assert s == p + [c];
      assert Canonical(p) by {
        assert p[0] == s[0];
        forall i | 0 <= i < |p| ensures IsDigit(p[i]) { assert p[i] == s[i]; }
      }
      ValueConcat(0, p, [c]);
      var v := Value(0, p);
      assert Value(0, s) == v * 10 + DigitValue(c);
      ValueAtLeast(DigitValue(p[0]), p[1..]);
      assert v >= 1;
      CanonicalValue(p);
      assert DigitChar(DigitValue(c)) == c;
    }
  }

  /**
   * On canonical text the parse and `to_string` are inverse: canonical text
   * parses to `n` exactly when it is the text `to_string` writes for `n`.
   */
  lemma ParseCanonical(s: string, n: u32)
    requires Canonical(s)
    ensures ParseU32(s) == Ok(n) <==> s == ToDecimal(n as nat)
  {
    if ParseU32(s) == Ok(n) {
      assert Unsigned(s) == s;
      CanonicalValue(s);
    }
    if s == ToDecimal(n as nat) {
      ParseToDecimal(n);
    }
  }

  /** Text that is empty, a lone sign, signed negative or not all digits is rejected as malformed. */
  lemma ParseRejectsMalformed()
    ensures ParseU32("") == Err(Empty)
    ensures ParseU32("+") == Err(InvalidDigit)
    ensures ParseU32("-1") == Err(InvalidDigit)
    ensures ParseU32(" 7") == Err(InvalidDigit)
    ensures ParseU32("12a") == Err(InvalidDigit)
  {
    assert Unsigned("-1") == "-1";
    assert Unsigned(" 7") == " 7";
    assert Unsigned("12a") == "12a";
    assert Accumulate(0, "12a") == Accumulate(1, "2a") == Accumulate(12, "a");
  }

  /** Unsigned digit text is accepted exactly when its value fits, and then denotes that value. */
  lemma ParseDigits(s: string)
    requires |s| > 0 && AllDigits(s)
    ensures Value(0, s) <= U32_MAX ==> ParseU32(s) == Ok(Value(0, s) as u32)
    ensures Value(0, s) > U32_MAX ==> ParseU32(s) == Err(PosOverflow)
  {
    assert s[0] != '+' && s[0] != '-';
    assert Unsigned(s) == s;
    AccumulateChecksFinalValue(0, s);
  }

  /** The largest `u32` is accepted. */
  lemma ParseMax()
    ensures ParseU32("4294967295") == Ok(0xFFFF_FFFF)
  {
  }

  /** One more than the largest `u32` is an overflow. */
  lemma ParseOverflow()
    ensures ParseU32("4294967296") == Err(PosOverflow)
  {
  }

  /** A `+` sign and leading zeros are accepted. */
  lemma ParseSignedPadded()
    ensures ParseU32("+007") == Ok(7)
  {
  }
}
