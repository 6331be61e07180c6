/** Decimal digits: the trial index written into a column name (Python's
    str of a non-negative int) and the first run of digits in a set-size
    label (the regex (\d+) followed by astype(int)). Only ASCII digits count. */
module Digits {
  import opened Frames

  predicate IsDigit(c: char)
  {
    '0' <= c <= '9'
  }

  predicate AllDigits(s: string)
  {
    forall k :: 0 <= k < |s| ==> IsDigit(s[k])
  }

  predicate NoDigits(s: string)
  {
    forall k :: 0 <= k < |s| ==> !IsDigit(s[k])
  }

  /** The number a string of digits spells, most significant digit first;
      leading zeros are allowed, as int("04") allows them. */
  function DigitsValue(s: string): nat
    requires AllDigits(s)
  {
    if s == [] then 0 else DigitsValue(s[..|s| - 1]) * 10 + (s[|s| - 1] as int - '0' as int)
  }

  /** Python's str(n) for n >= 0: digits without leading zeros. */
  function Decimal(n: nat): (s: string)
    ensures s != [] && AllDigits(s)
    ensures DigitsValue(s) == n
    ensures s[0] == '0' ==> n == 0
  {
    if n < 10 then [('0' as int + n) as char]
    else
      var p := Decimal(n / 10);
      var s := p + [('0' as int + n % 10) as char];
      assert s[..|s| - 1] == p;
      s
  }

  /** Distinct trial indices give distinct column names. */
  lemma DecimalInjective(a: nat, b: nat)
    requires Decimal(a) == Decimal(b)
    ensures a == b
  {
  }

  /** The length of the digit run `s` starts with. */
  function LeadingDigits(s: string): (r: nat)
    ensures r <= |s| && AllDigits(s[..r])
    ensures r == |s| || !IsDigit(s[r])
  {
    if s == [] || !IsDigit(s[0]) then 0
    else
      var t := LeadingDigits(s[1..]);
      assert s[..t + 1] == [s[0]] + s[1..][..t];
      t + 1
  }

  /** The value of the first maximal run of digits in `s`, or None when `s`
      holds no digit (str.extract(r'(\d+)') gives NaN there). */
  function FirstDigitRun(s: string): (r: Option<nat>)
    ensures r.None? <==> NoDigits(s)
  {
    if s == [] then None
    else if IsDigit(s[0]) then Some(DigitsValue(s[..LeadingDigits(s)]))
    else
      var r := FirstDigitRun(s[1..]);
      assert NoDigits(s[1..]) ==> NoDigits(s) by {
        if NoDigits(s[1..]) {
          forall k | 0 <= k < |s| ensures !IsDigit(s[k]) {
            if k > 0 { assert s[k] == s[1..][k - 1]; }
          }
        }
      }
      r
  }

  /** FirstDigitRun finds the run s[i..j] when nothing before i is a digit,
      s[i..j] is all digits and s[j] (if any) is not. */
  lemma {:induction false} FirstDigitRunAt(s: string, i: nat, j: nat)
    requires i < j <= |s|
    requires NoDigits(s[..i]) && AllDigits(s[i..j])
    requires j == |s| || !IsDigit(s[j])
    ensures FirstDigitRun(s) == Some(DigitsValue(s[i..j]))
    decreases i
  {
    if i == 0 {
      assert IsDigit(s[0]);
      var r := LeadingDigits(s);
      assert forall k :: 0 <= k < j ==> s[k] == s[i..j][k];
      assert s[..r] == s[i..j];
    } else {
      assert !IsDigit(s[0]) by { assert s[0] == s[..i][0]; }
      assert s[1..][..i - 1] == s[..i][1..];
      assert s[1..][i - 1..j - 1] == s[i..j];
      FirstDigitRunAt(s[1..], i - 1, j - 1);
    }
  }

  /** A label such as "Set Size 4" yields the number written in it. */
  lemma ExtractsDecimal(prefix: string, n: nat, suffix: string)
    requires NoDigits(prefix)
    requires suffix == [] || !IsDigit(suffix[0])
    ensures FirstDigitRun(prefix + Decimal(n) + suffix) == Some(n)
  {
    var s := prefix + Decimal(n) + suffix;
    var i, j := |prefix|, |prefix| + |Decimal(n)|;
    assert s[..i] == prefix && s[i..j] == Decimal(n);
    assert j < |s| ==> s[j] == suffix[0];
    FirstDigitRunAt(s, i, j);
  }
}
