/**
  Go's `strconv.Atoi` and `strconv.Itoa` for a 64-bit `int`: base 10, an
  optional sign, at least one ASCII digit, no underscores or prefixes, and a
  range error for values outside the int64 range.
 */
module Strconv {
  import opened Wrappers
  import opened Decimal
  import opened Strings

  const MinInt: int := -0x8000_0000_0000_0000
  const MaxInt: int := 0x7FFF_FFFF_FFFF_FFFF

  predicate IsSign(c: char) {
    c == '+' || c == '-'
  }

  /** Go's `strconv.Atoi`; `None` stands for both the syntax error and the range error. */
  function Atoi(s: string): Option<int> {
    if |s| == 0 then None
    else
      var digits := if IsSign(s[0]) then s[1..] else s;
      if |digits| == 0 || !AllDigits(digits) then None
      else
        var magnitude: int := DecimalValue(digits);
        var v := if s[0] == '-' then -magnitude else magnitude;
        if MinInt <= v <= MaxInt then Some(v) else None
  }

  /** Go's `strconv.Itoa`, the same text `%d` prints. */
  function Itoa(n: int): string {
    if n < 0 then "-" + NatToString(-n) else NatToString(n)
  }

  /** Every int renders to a text that Atoi reads back as the same int. */
  lemma {:induction false} AtoiItoa(n: int)
    requires MinInt <= n <= MaxInt
    ensures Atoi(Itoa(n)) == Some(n)
  {
    var s := Itoa(n);
    if n < 0 {
      var d := NatToString(-n);
      NatToStringRoundTrip(-n);
      assert s[0] == '-' && s[1..] == d;
    } else {
      NatToStringRoundTrip(n);
      assert IsDigit(s[0]) && !IsSign(s[0]);
    }
  }

  /** The sign a text starts with, if any. */
  function SignOf(s: string): string {
    if |s| > 0 && IsSign(s[0]) then s[..1] else ""
  }

  /** The text after its sign. */
  function DigitsOf(s: string): string {
    if |s| > 0 && IsSign(s[0]) then s[1..] else s
  }

  /** The value a sign and a run of digits denote. */
  function SignedValue(sign: string, digits: string): int
    requires AllDigits(digits)
  {
    var magnitude: int := DecimalValue(digits);
    if sign == "-" then -magnitude else magnitude
  }

  /**
    What Atoi accepts: an optional sign followed by at least one ASCII
    digit, denoting a value in the int64 range, and it returns that value;
    a negative value needs the minus sign.
   */
  lemma {:induction false} AtoiAccepts(s: string)
    ensures Atoi(s).Some? ==> MinInt <= Atoi(s).value <= MaxInt
    ensures Atoi(s).Some? ==> |s| > 0 && AllDigits(s[1..]) && (IsDigit(s[0]) || (IsSign(s[0]) && |s| > 1))
    ensures Atoi(s).Some? && Atoi(s).value < 0 ==> s[0] == '-'
    ensures Atoi(s).Some? ==>
      && |DigitsOf(s)| > 0 && AllDigits(DigitsOf(s))
      && Atoi(s).value == SignedValue(SignOf(s), DigitsOf(s))
  {
  }

  /**
    The converse of `AtoiAccepts`: an optional sign followed by at least one
    digit, denoting a value in the int64 range, is accepted with that value,
    leading zeros, a plus sign and "-0" included.
   */
  lemma {:induction false} AtoiSignedDigits(sign: string, digits: string)
    requires sign == "" || sign == "+" || sign == "-"
    requires |digits| > 0 && AllDigits(digits)
    requires MinInt <= SignedValue(sign, digits) <= MaxInt
    ensures Atoi(sign + digits) == Some(SignedValue(sign, digits))
  {
    var s := sign + digits;
    if sign == "" {
      assert s == digits && !IsSign(s[0]);
    } else {
      assert IsSign(s[0]) && s[1..] == digits;
    }
  }

  /**
    An optional sign followed by digits whose value lies outside the int64
    range is rejected (Go's range error).
   */
  lemma {:induction false} AtoiOutOfRange(sign: string, digits: string)
    requires sign == "" || sign == "+" || sign == "-"
    requires |digits| > 0 && AllDigits(digits)
    requires !(MinInt <= SignedValue(sign, digits) <= MaxInt)
    ensures Atoi(sign + digits) == None
  {
    var s := sign + digits;
    if sign == "" {
      assert s == digits && !IsSign(s[0]);
    } else {
      assert IsSign(s[0]) && s[1..] == digits;
    }
  }

  /** Inputs Go's `strconv.Atoi` treats specially, read the same way here. */
  lemma {:induction false} AtoiCorners()
    ensures Atoi("+5") == Some(5) && Atoi("007") == Some(7) && Atoi("-0") == Some(0)
    ensures Atoi("") == None && Atoi("-") == None && Atoi("1_000") == None && Atoi("0x1F") == None
  {
    assert DecimalValue("5") == 5 && DecimalValue("0") == 0 by {
      assert "5"[..0] == "0"[..0] == "";
    }
    assert DecimalValue("007") == 7 by {
      assert "007"[..2] == "00" && "00"[..1] == "0" && "0"[..0] == "";
    }
    AtoiSignedDigits("+", "5");
    AtoiSignedDigits("", "007");
    AtoiSignedDigits("-", "0");
    assert !IsDigit('_') && !IsDigit('x');
    assert "1_000"[1] == '_' && "0x1F"[1] == 'x';
  }

  /** Itoa writes no surrounding space, so TrimSpace leaves it alone. */
  lemma {:induction false} ItoaTrimmed(n: int)
    ensures Trimmed(Itoa(n))
  {
    var d := if n < 0 then NatToString(-n) else NatToString(n);
    var s := Itoa(n);
    assert s[|s| - 1] == d[|d| - 1];
  }

  /** A token with any space in it, such as an untrimmed " 7", is rejected. */
  lemma {:induction false} AtoiRejectsSpace(s: string, i: nat)
    requires i < |s| && IsSpace(s[i])
    ensures Atoi(s) == None
  {
    AtoiAccepts(s);
  }
}
