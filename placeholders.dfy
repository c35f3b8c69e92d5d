/**
  PostgreSQL positional parameters in SQL text: the `$<n>` marker that
  `fmt.Sprintf("$%d", n)` writes, and a scanner that lists the parameter
  numbers a text refers to, in order of appearance. The scanner is how the
  query builder's placeholder numbering is stated on the text itself.
 */
module Placeholders {
  import opened Decimal
  import opened Strings

  /** A positional argument bound to a placeholder: a text value or an integer. */
  datatype Arg = S(text: string) | I(number: int)

  /** The placeholder for parameter `k`. */
  function Dollar(k: nat): (p: string)
    ensures |p| >= 2 && p[0] == '$' && AllDigits(p[1..])
  {
    "$" + NatToString(k)
  }

  /** Length of the run of digits `s` starts with. */
  function DigitRun(s: string): (n: nat)
    ensures n <= |s|
    decreases |s|
  {
    if |s| > 0 && IsDigit(s[0]) then 1 + DigitRun(s[1..]) else 0
  }

  /** The run is made of digits and stops at the first non-digit. */
  lemma {:induction false} DigitRunDigits(s: string)
    ensures AllDigits(s[..DigitRun(s)])
    ensures DigitRun(s) < |s| ==> !IsDigit(s[DigitRun(s)])
    decreases |s|
  {
    if |s| > 0 && IsDigit(s[0]) {
      DigitRunDigits(s[1..]);
      assert s[..DigitRun(s)] == [s[0]] + s[1..][..DigitRun(s[1..])];
    }
  }

  /** The parameter numbers `s` refers to, in order: each `$` followed by a digit run. */
  function Scan(s: string): seq<nat>
    decreases |s|
  {
    if |s| == 0 then []
    else if s[0] == '$' && DigitRun(s[1..]) > 0 then
      var n := DigitRun(s[1..]);
      DigitRunDigits(s[1..]);
      assert s[1..][..n] == s[1..1 + n];
      [DecimalValue(s[1..1 + n])] + Scan(s[1 + n..])
    else Scan(s[1..])
  }

  predicate NoDollar(s: string) {
    forall i | 0 <= i < |s| :: s[i] != '$'
  }

  /**
    Text that can be glued to other such text without two placeholders
    merging: it neither starts with a digit nor ends with a bare `$`.
   */
  predicate Clean(s: string) {
    |s| > 0 ==> !IsDigit(s[0]) && s[|s| - 1] != '$'
  }

  lemma {:induction false} CleanAppend(a: string, b: string)
    requires Clean(a) && Clean(b)
    ensures Clean(a + b)
  {
  }

  lemma {:induction false} DollarClean(k: nat)
    ensures Clean(Dollar(k))
  {
    var p := Dollar(k);
    assert p[|p| - 1] == p[1..][|p| - 2];
  }

  lemma {:induction false} ScanNoDollar(s: string)
    requires NoDollar(s)
    ensures Scan(s) == []
    decreases |s|
  {
    if |s| > 0 {
      ScanNoDollar(s[1..]);
    }
  }

  lemma {:induction false} DigitRunAppend(x: string, y: string)
    requires |y| > 0 ==> !IsDigit(y[0])
    ensures DigitRun(x + y) == DigitRun(x)
    decreases |x|
  {
    if |x| > 0 {
      assert (x + y)[1..] == x[1..] + y;
      DigitRunAppend(x[1..], y);
    } else {
      assert x + y == y;
    }
  }

  lemma {:induction false} DigitRunAll(x: string)
    requires AllDigits(x)
    ensures DigitRun(x) == |x|
    decreases |x|
  {
    if |x| > 0 {
      DigitRunAll(x[1..]);
    }
  }

  /** Scanning distributes over gluing when the junction cannot merge two placeholders. */
  lemma {:induction false} ScanAppend(a: string, b: string)
    requires |a| > 0 ==> a[|a| - 1] != '$'
    requires |b| > 0 ==> !IsDigit(b[0])
    ensures Scan(a + b) == Scan(a) + Scan(b)
    decreases |a|
  {
    if |a| == 0 {
      assert a + b == b;
    } else {
      assert (a + b)[1..] == a[1..] + b;
      DigitRunAppend(a[1..], b);
      var n := DigitRun(a[1..]);
      if a[0] == '$' && n > 0 {
        ScanAppend(a[1 + n..], b);
        ScanAppendMarker(a, b, n);
      } else {
        ScanAppend(a[1..], b);
        ScanAppendOther(a, b);
      }
    }
  }

  /** One step of ScanAppend: `a` starts with a placeholder whose digits end inside `a`. */
  lemma {:induction false} ScanAppendMarker(a: string, b: string, n: nat)
    requires |a| > 0 && a[0] == '$' && n == DigitRun(a[1..]) > 0
    requires DigitRun((a + b)[1..]) == n
    requires Scan(a[1 + n..] + b) == Scan(a[1 + n..]) + Scan(b)
    ensures Scan(a + b) == Scan(a) + Scan(b)
  {
    ScanMarker(a, n);
    ScanMarkerAppend(a, b, n);
  }

  /** Gluing text after a placeholder that ends inside `a` leaves the placeholder as it is. */
  lemma {:induction false} ScanMarkerAppend(a: string, b: string, n: nat)
    requires |a| > 0 && a[0] == '$' && n == DigitRun(a[1..]) > 0
    requires DigitRun((a + b)[1..]) == n
    ensures 1 + n <= |a| && AllDigits(a[1..1 + n])
    ensures Scan(a + b) == [DecimalValue(a[1..1 + n])] + Scan(a[1 + n..] + b)
  {
    var ab := a + b;
    ScanMarker(a, n);
    ScanMarker(ab, n);
    assert ab[1..1 + n] == a[1..1 + n];
    assert ab[1 + n..] == a[1 + n..] + b;
  }

  /** Scan of a text that starts with a placeholder of `n` digits. */
  lemma {:induction false} ScanMarker(s: string, n: nat)
    requires |s| > 0 && s[0] == '$' && n == DigitRun(s[1..]) > 0
    ensures 1 + n <= |s| && s[1..][..n] == s[1..1 + n] && AllDigits(s[1..1 + n])
    ensures Scan(s) == [DecimalValue(s[1..1 + n])] + Scan(s[1 + n..])
  {
    DigitRunDigits(s[1..]);
  }

  /** One step of ScanAppend: `a` does not start with a placeholder. */
  lemma {:induction false} ScanAppendOther(a: string, b: string)
    requires |a| > 0
    requires !(a[0] == '$' && DigitRun(a[1..]) > 0)
    requires DigitRun((a + b)[1..]) == DigitRun(a[1..])
    requires Scan(a[1..] + b) == Scan(a[1..]) + Scan(b)
    ensures Scan(a + b) == Scan(a) + Scan(b)
  {
    assert (a + b)[1..] == a[1..] + b;
  }

  /** The placeholder for `k` refers to parameter `k` and to nothing else. */
  lemma {:induction false} ScanDollar(k: nat)
    ensures Scan(Dollar(k)) == [k]
  {
    var p := Dollar(k);
    var d := NatToString(k);
    assert p[1..] == d;
    DigitRunAll(d);
    NatToStringRoundTrip(k);
    assert p[1..1 + |d|] == d;
    assert p[1 + |d|..] == [];
  }

  /** The parameter numbers of each part, concatenated. */
  function ScanAll(parts: seq<string>): seq<nat>
    decreases |parts|
  {
    if |parts| == 0 then [] else Scan(parts[0]) + ScanAll(parts[1..])
  }

  lemma {:induction false} NoDollarAppend(a: string, b: string)
    requires NoDollar(a) && NoDollar(b)
    ensures NoDollar(a + b)
  {
    forall i | 0 <= i < |a + b|
      ensures (a + b)[i] != '$'
    {
      if i >= |a| {
        assert (a + b)[i] == b[i - |a|];
      }
    }
  }

  lemma {:induction false} NoDollarJoin(parts: seq<string>, sep: string)
    requires forall i | 0 <= i < |parts| :: NoDollar(parts[i])
    requires NoDollar(sep)
    ensures NoDollar(Join(parts, sep))
    decreases |parts|
  {
    if |parts| > 1 {
      NoDollarJoin(parts[1..], sep);
      NoDollarAppend(parts[0], sep);
      NoDollarAppend(parts[0] + sep, Join(parts[1..], sep));
    }
  }

  /**
    Joining clean parts with a separator free of `$` keeps every part's
    parameter numbers, in order, and adds none.
   */
  lemma {:induction false} ScanJoin(parts: seq<string>, sep: string)
    requires forall i | 0 <= i < |parts| :: Clean(parts[i])
    requires Clean(sep) && NoDollar(sep)
    ensures Scan(Join(parts, sep)) == ScanAll(parts)
    ensures Clean(Join(parts, sep))
    decreases |parts|
  {
    if |parts| == 1 {
      assert ScanAll(parts[1..]) == [];
    } else if |parts| > 1 {
      var p, rest := parts[0], Join(parts[1..], sep);
      ScanJoin(parts[1..], sep);
      assert Scan(p + sep) == Scan(p) by {
        ScanNoDollar(sep);
        ScanAppend(p, sep);
      }
      CleanAppend(p, sep);
      ScanAppend(p + sep, rest);
      CleanAppend(p + sep, rest);
    }
  }
}
