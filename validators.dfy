/**
 * The `validate` callbacks of the prompts: the HTTP and HTTPS port, the
 * certificate's common name and its country code. A callback answers `true`
 * or the message that the prompt shows before asking again.
 */
module Validators {

  datatype Verdict = Accept | Reject(message: string)

  const PortMessage := "Invalid port, input a port between 1 and 65535"
  const CommonNameMessage := "This is required"
  const CountryMessage := "Incorrect input please enter in this format (e.g. US, CA)"

  const MaxPort: nat := 65535

  predicate IsDigit(c: char) {
    '0' <= c <= '9'
  }

  predicate AllDigits(s: string) {
    forall i :: 0 <= i < |s| ==> IsDigit(s[i])
  }

  /** A decimal numeral without leading zeros. */
  predicate Canonical(s: string) {
    |s| >= 1 && AllDigits(s) && (s[0] == '0' ==> |s| == 1)
  }

  function DigitValue(c: char): (d: nat)
    requires IsDigit(c)
    ensures d < 10
  {
    c as int - '0' as int
  }

  function DigitChar(d: nat): (c: char)
    requires d < 10
    ensures IsDigit(c) && DigitValue(c) == d
  {
    ('0' as int + d) as char
  }

  /** The number a string of digits denotes. */
  function Value(s: string): nat
    requires AllDigits(s)
  {
    if s == [] then 0 else 10 * Value(s[..|s| - 1]) + DigitValue(s[|s| - 1])
  }

  /** The decimal form of `n`, as JavaScript's `String(n)` writes it. */
  function Decimal(n: nat): string {
    if n < 10 then [DigitChar(n)] else Decimal(n / 10) + [DigitChar(n % 10)]
  }

  function Pow10(k: nat): (p: nat)
    ensures p >= 1
  {
    if k == 0 then 1 else 10 * Pow10(k - 1)
  }

  /**
   * The pattern of the port callbacks,
   * `^(?:6553[0-5]|655[0-2][0-9]|65[0-4][0-9]{2}|6[0-4][0-9]{3}|[1-5][0-9]{4}|[1-9][0-9]{1,3}|[0-9])$`,
   * one disjunct per alternative. Without the `m` flag, `^` and `$` anchor at
   * the ends of the whole input.
   */
  predicate PortPattern(s: string) {
    || (|s| == 5 && s[0] == '6' && s[1] == '5' && s[2] == '5' && s[3] == '3' && '0' <= s[4] <= '5')
    || (|s| == 5 && s[0] == '6' && s[1] == '5' && s[2] == '5' && '0' <= s[3] <= '2' && IsDigit(s[4]))
    || (|s| == 5 && s[0] == '6' && s[1] == '5' && '0' <= s[2] <= '4' && IsDigit(s[3]) && IsDigit(s[4]))
    || (|s| == 5 && s[0] == '6' && '0' <= s[1] <= '4' && IsDigit(s[2]) && IsDigit(s[3]) && IsDigit(s[4]))
    || (|s| == 5 && '1' <= s[0] <= '5' && IsDigit(s[1]) && IsDigit(s[2]) && IsDigit(s[3]) && IsDigit(s[4]))
    || (2 <= |s| <= 4 && '1' <= s[0] <= '9' && forall i :: 1 <= i < |s| ==> IsDigit(s[i]))
    || (|s| == 1 && IsDigit(s[0]))
  }

  /** The HTTP and HTTPS port callback, as written. */
  function ValidatePort(input: string): (v: Verdict)
    ensures v == Accept || v == Reject(PortMessage)
  {
    if PortPattern(input) then Accept else Reject(PortMessage)
  }

  /** The common-name callback: `!input ? 'This is required' : true`. */
  function ValidateCommonName(input: string): (v: Verdict)
    ensures v.Accept? <==> |input| > 0
    ensures v.Reject? ==> v.message == CommonNameMessage
  {
    if input == "" then Reject(CommonNameMessage) else Accept
  }

  /** The country callback, pattern `^[A-Z]{2}$`. */
  function ValidateCountry(input: string): (v: Verdict)
    ensures v.Accept? <==> |input| == 2 && forall i :: 0 <= i < |input| ==> 'A' <= input[i] <= 'Z'
    ensures v.Reject? ==> v.message == CountryMessage
  {
    if |input| == 2 && 'A' <= input[0] <= 'Z' && 'A' <= input[1] <= 'Z' then Accept
    else Reject(CountryMessage)
  }

  lemma {:induction false} ValueAppend(s: string, c: char)
    requires AllDigits(s) && IsDigit(c)
    ensures AllDigits(s + [c])
    ensures Value(s + [c]) == 10 * Value(s) + DigitValue(c)
  {
    assert (s + [c])[..|s|] == s;
  }

  /** `Decimal(n)` is canonical and denotes `n`. */
  lemma {:induction false} DecimalCanonical(n: nat)
    ensures Canonical(Decimal(n))
    ensures Value(Decimal(n)) == n
    ensures Decimal(n)[0] == '0' <==> n == 0
  {
    if n < 10 {
      assert Decimal(n) == [DigitChar(n)];
      assert Decimal(n)[..0] == [];
    } else {
      var p := Decimal(n / 10);
      DecimalCanonical(n / 10);
      ValueAppend(p, DigitChar(n % 10));
      assert Decimal(n) == p + [DigitChar(n % 10)];
      assert Decimal(n)[0] == p[0];
    }
  }

  /** A canonical numeral is the decimal form of the number it denotes. */
  lemma {:induction false} CanonicalIsDecimal(s: string)
    requires Canonical(s)
    ensures Decimal(Value(s)) == s
    decreases |s|
  {
    if |s| == 1 {
      assert s[..0] == [];
      assert Value(s) == DigitValue(s[0]);
      assert Decimal(Value(s)) == [DigitChar(DigitValue(s[0]))];
    } else {
      var p := s[..|s| - 1];
      var d := DigitValue(s[|s| - 1]);
      assert p[0] == s[0];
      assert Canonical(p);
      LeadingDigitBound(p);
      CanonicalIsDecimal(p);
      var v := Value(s);
      assert v == 10 * Value(p) + d;
      assert v >= 10;
      assert v / 10 == Value(p) && v % 10 == d;
      assert Decimal(v) == Decimal(Value(p)) + [DigitChar(d)];
      assert s == p + [s[|s| - 1]];
    }
  }

  /** A numeral of `k` digits that does not start with `0` denotes at least `10^(k-1)`. */
  lemma {:induction false} LeadingDigitBound(s: string)
    requires AllDigits(s) && |s| >= 1 && s[0] != '0'
    ensures Value(s) >= Pow10(|s| - 1)
    decreases |s|
  {
    var p := s[..|s| - 1];
    if |s| == 1 {
      assert p == [];
    } else {
      assert p[0] == s[0];
      LeadingDigitBound(p);
    }
  }

  lemma {:induction false} Pow10Grows(k: nat)
    requires k >= 5
    ensures Pow10(k) >= 100000
  {
    if k > 5 {
      Pow10Grows(k - 1);
    }
  }

  /** A numeral of at most `k` digits denotes less than `10^k`. */
  lemma {:induction false} ValueBelowPow10(s: string)
    requires AllDigits(s)
    ensures Value(s) < Pow10(|s|)
    decreases |s|
  {
    if s != [] {
      ValueBelowPow10(s[..|s| - 1]);
    }
  }

  lemma ValueOfFive(s: string)
    requires |s| == 5 && AllDigits(s)
    ensures Value(s) == 10000 * DigitValue(s[0]) + 1000 * DigitValue(s[1]) + 100 * DigitValue(s[2])
                        + 10 * DigitValue(s[3]) + DigitValue(s[4])
  {
    assert s[..5] == s;
    assert s[..5][..4] == s[..4];
    assert s[..4][..3] == s[..3];
    assert s[..3][..2] == s[..2];
    assert s[..2][..1] == s[..1];
    assert s[..1][..0] == [];
    assert Value(s[..1]) == DigitValue(s[0]);
    assert Value(s[..2]) == 10 * Value(s[..1]) + DigitValue(s[1]);
    assert Value(s[..3]) == 10 * Value(s[..2]) + DigitValue(s[2]);
    assert Value(s[..4]) == 10 * Value(s[..3]) + DigitValue(s[3]);
  }

  lemma FiveDigits(s: string)
    requires |s| == 5 && IsDigit(s[0]) && IsDigit(s[1]) && IsDigit(s[2]) && IsDigit(s[3]) && IsDigit(s[4])
    ensures AllDigits(s)
  {
    forall i | 0 <= i < 5 ensures IsDigit(s[i]) {
      if i == 0 {} else if i == 1 {} else if i == 2 {} else if i == 3 {} else {}
    }
  }

  /** What the port pattern accepts, in arithmetic terms. */
  lemma PortPatternMeaning(s: string)
    ensures PortPattern(s) <==> Canonical(s) && Value(s) <= MaxPort
  {
    if PortPattern(s) {
      if |s| == 5 {
        FiveDigits(s);
        ValueOfFive(s);
      } else if |s| >= 2 {
        assert AllDigits(s) by {
          forall i | 0 <= i < |s| ensures IsDigit(s[i]) {
            if i == 0 {} else {}
          }
        }
        ValueBelowPow10(s);
        assert Pow10(|s|) <= 10000 by {
          if |s| == 2 {} else if |s| == 3 {} else {}
        }
      } else {
        assert s[..0] == [];
        assert AllDigits(s);
      }
    }
    if Canonical(s) && Value(s) <= MaxPort {
      if |s| >= 6 {
        LeadingDigitBound(s);
        Pow10Grows(|s| - 1);
        assert false;
      } else if |s| == 5 {
        ValueOfFive(s);
        FivePortCases(s);
      } else if |s| >= 2 {
        assert s[0] != '0';
      }
    }
  }

  lemma FivePortCases(s: string)
    requires |s| == 5 && AllDigits(s) && s[0] != '0'
    requires 10000 * DigitValue(s[0]) + 1000 * DigitValue(s[1]) + 100 * DigitValue(s[2])
             + 10 * DigitValue(s[3]) + DigitValue(s[4]) <= MaxPort
    ensures PortPattern(s)
  {
    var a, b, c, d, e := DigitValue(s[0]), DigitValue(s[1]), DigitValue(s[2]), DigitValue(s[3]), DigitValue(s[4]);
    assert IsDigit(s[0]) && IsDigit(s[1]) && IsDigit(s[2]) && IsDigit(s[3]) && IsDigit(s[4]);
    if a <= 5 {
      assert '1' <= s[0] <= '5';
    } else {
      assert a == 6;
      if b <= 4 {
      } else {
        assert b == 5;
        if c <= 4 {
        } else {
          assert c == 5;
          if d <= 2 {
          } else {
            assert d == 3 && e <= 5;
          }
        }
      }
    }
  }

  /** The port callback accepts exactly the decimal forms of 0 through 65535. */
  lemma PortValidatorAcceptsDecimals(s: string)
    ensures ValidatePort(s).Accept? <==> exists n: nat :: n <= MaxPort && s == Decimal(n)
  {
    PortPatternMeaning(s);
    if ValidatePort(s).Accept? {
      CanonicalIsDecimal(s);
    }
    if exists n: nat :: n <= MaxPort && s == Decimal(n) {
      var n: nat :| n <= MaxPort && s == Decimal(n);
      DecimalCanonical(n);
    }
  }

  /** The callback lets `"0"` through although its message asks for a port from 1. */
  lemma PortValidatorAcceptsZero()
    ensures ValidatePort("0").Accept?
    ensures Decimal(0) == "0"
  {
    assert PortPattern("0");
  }

  /** The pattern with its last alternative `[1-9]`, as the message describes. */
  predicate IntendedPortPattern(s: string) {
    PortPattern(s) && !(|s| == 1 && s[0] == '0')
  }

  /** The port callback as its message describes it. */
  function ValidatePortInRange(input: string): (v: Verdict)
    ensures v == Accept || v == Reject(PortMessage)
  {
    if IntendedPortPattern(input) then Accept else Reject(PortMessage)
  }

  /** The corrected callback accepts exactly the decimal forms of 1 through 65535. */
  lemma PortInRangeAcceptsDecimals(s: string)
    ensures ValidatePortInRange(s).Accept? <==> exists n: nat :: 1 <= n <= MaxPort && s == Decimal(n)
  {
    PortValidatorAcceptsDecimals(s);
    if ValidatePortInRange(s).Accept? {
      var n: nat :| n <= MaxPort && s == Decimal(n);
      DecimalCanonical(n);
      assert n != 0;
    }
    if exists n: nat :: 1 <= n <= MaxPort && s == Decimal(n) {
      var n: nat :| 1 <= n <= MaxPort && s == Decimal(n);
      DecimalCanonical(n);
      assert ValidatePort(s).Accept?;
      assert !(|s| == 1 && s[0] == '0');
    }
  }
}
