/**
 * The Luhn check digit (ISO/IEC 7812-1, Annex B) of the test fixtures, and the
 * 12-digit Swedish personal numbers built with it.
 */
module Luhn {
  import opened PyText

  predicate IsDigit(c: char) {
    '0' <= c <= '9'
  }

  /** A string `int()` reads as a natural number here: one or more ASCII digits. */
  predicate IsDigitString(s: string) {
    |s| > 0 && forall i :: 0 <= i < |s| ==> IsDigit(s[i])
  }

  /** The value of one digit character. */
  function DigitOf(c: char): (d: nat)
    requires IsDigit(c)
    ensures d <= 9
  {
    c as int - '0' as int
  }

  /** The digit values of a digit string, leading zeros included. */
  function DigitValues(s: string): (ds: seq<nat>)
    requires forall i :: 0 <= i < |s| ==> IsDigit(s[i])
    ensures |ds| == |s|
  {
    if s == [] then [] else DigitValues(s[..|s| - 1]) + [DigitOf(s[|s| - 1])]
  }

  /** `int(s)` of a digit string. */
  function DecimalValue(s: string): nat
    requires forall i :: 0 <= i < |s| ==> IsDigit(s[i])
  {
    if s == [] then 0 else DecimalValue(s[..|s| - 1]) * 10 + DigitOf(s[|s| - 1])
  }

  /** `digits_of(n)`: the decimal digits of `n`, most significant first (see `DigitsOfIsStr`). */
  function DigitsOf(n: nat): (ds: seq<nat>)
    ensures |ds| > 0
  {
    if n < 10 then [n] else DigitsOf(n / 10) + [n % 10]
  }

  /** `sum(digits_of(n))`. */
  function DigitSum(n: nat): nat {
    Sum(DigitsOf(n))
  }

  function Sum(s: seq<nat>): nat {
    if s == [] then 0 else s[0] + Sum(s[1..])
  }

  /** The sum of `sum(digits_of(k * 2))` over the elements `k`. */
  function DoubledSum(s: seq<nat>): nat {
    if s == [] then 0 else DigitSum(s[0] * 2) + DoubledSum(s[1..])
  }

  /** `s[-1::-2]`: the last element, the third from last, and so on. */
  function StrideFromEnd(s: seq<nat>): (r: seq<nat>)
    ensures |r| == (|s| + 1) / 2
  {
    if |s| == 0 then []
    else if |s| == 1 then [s[0]]
    else [s[|s| - 1]] + StrideFromEnd(s[..|s| - 2])
  }

  /** `s[-2::-2]`: the same, starting at the second from last element. */
  function StrideFromSecondLast(s: seq<nat>): seq<nat> {
    if |s| < 2 then [] else StrideFromEnd(s[..|s| - 1])
  }

  /**
   * The Luhn sum, counted from the right: a digit in an even position (the last
   * being position 0) counts as itself, one in an odd position is doubled and its
   * decimal digits added. `doubled` says whether the last digit is in an odd position.
   */
  function LuhnSumFrom(ds: seq<nat>, doubled: bool): nat {
    if ds == [] then 0
    else Weight(ds[|ds| - 1], doubled) + LuhnSumFrom(ds[..|ds| - 1], !doubled)
  }

  /** What one digit contributes: itself, or the digit sum of its double. */
  function Weight(d: nat, doubled: bool): nat {
    if doubled then DigitSum(d * 2) else d
  }

  function LuhnSum(ds: seq<nat>): nat {
    LuhnSumFrom(ds, false)
  }

  /** A digit sequence passes the Luhn test when its Luhn sum is a multiple of 10. */
  predicate LuhnValid(ds: seq<nat>) {
    LuhnSum(ds) % 10 == 0
  }

  // ---------------------------------------------------------------------
  // The strided sums of the source are the Luhn sum
  // ---------------------------------------------------------------------

  lemma {:induction false} StridedSums(ds: seq<nat>)
    ensures LuhnSumFrom(ds, false) == Sum(StrideFromEnd(ds)) + DoubledSum(StrideFromSecondLast(ds))
    ensures LuhnSumFrom(ds, true) == DoubledSum(StrideFromEnd(ds)) + Sum(StrideFromSecondLast(ds))
    decreases |ds|
  {
    var n := |ds|;
    if n == 1 {
      assert ds[..0] == [];
      assert StrideFromEnd(ds) == [ds[0]];
    } else if n >= 2 {
      var front := ds[..n - 2];
      StridedSums(front);
      assert ds[..n - 1][..n - 2] == front;
      assert StrideFromEnd(ds) == [ds[n - 1]] + StrideFromEnd(front);
      assert StrideFromEnd(ds)[1..] == StrideFromEnd(front);
      assert StrideFromSecondLast(ds) == StrideFromEnd(ds[..n - 1]);
      if n == 2 {
        assert StrideFromEnd(ds[..1]) == [ds[0]];
        assert StrideFromSecondLast(front) == [];
      } else {
        assert ds[..n - 1][..n - 3] == ds[..n - 3];
        assert StrideFromEnd(ds[..n - 1]) == [ds[n - 2]] + StrideFromEnd(ds[..n - 3]);
        assert StrideFromEnd(ds[..n - 1])[1..] == StrideFromEnd(ds[..n - 3]);
        if n >= 4 {
          assert front[..n - 3] == ds[..n - 3];
        }
        assert StrideFromSecondLast(front) == StrideFromEnd(ds[..n - 3]);
      }
    }
  }

  lemma {:induction false} DoubledSumAppend(s: seq<nat>, x: nat)
    ensures DoubledSum(s + [x]) == DoubledSum(s) + DigitSum(x * 2)
  {
    if s == [] {
      assert [] + [x] == [x];
    } else {
      assert (s + [x])[1..] == s[1..] + [x];
      DoubledSumAppend(s[1..], x);
    }
  }

  // ---------------------------------------------------------------------
  // From `int(id_) * 10` back to the digits of `id_`
  // ---------------------------------------------------------------------

  lemma DigitValuesAppend(s: string, c: char)
    requires forall i :: 0 <= i < |s| ==> IsDigit(s[i])
    requires IsDigit(c)
    ensures DigitValues(s + [c]) == DigitValues(s) + [DigitOf(c)]
  {
    assert (s + [c])[..|s|] == s;
  }

  /** `digits_of(n)` is `[int(i) for i in str(n)]`: the values of the characters of `str(n)`. */
  lemma {:induction false} DigitsOfIsStr(n: nat)
    ensures DigitsOf(n) == DigitValues(NatToString(n))
  {
    var c := "0123456789"[n % 10];
    assert DigitOf(c) == n % 10;
    if n < 10 {
      assert NatToString(n) == [c];
      assert [c][..0] == [];
    } else {
      assert NatToString(n) == NatToString(n / 10) + [c];
      DigitValuesAppend(NatToString(n / 10), c);
      DigitsOfIsStr(n / 10);
    }
  }

  /** `digits_of(0)` is `[0]`, and a lone zero adds nothing to a Luhn sum. */
  lemma ZeroDigits()
    ensures DigitsOf(0) == [0]
    ensures LuhnSumFrom([0], true) == 0 && LuhnSumFrom([0], false) == 0
  {
    assert [0][..0] == [];
  }

  lemma LuhnSumSnoc(ds: seq<nat>, x: nat, doubled: bool)
    ensures LuhnSumFrom(ds + [x], doubled) == Weight(x, doubled) + LuhnSumFrom(ds, !doubled)
  {
    assert (ds + [x])[..|ds|] == ds;
  }

  /** `digits_of(int(s))` has the same Luhn sums as the digits of `s`: leading zeros count for nothing. */
  lemma {:induction false} LuhnSumOfDecimalValue(s: string, doubled: bool)
    requires forall i :: 0 <= i < |s| ==> IsDigit(s[i])
    ensures LuhnSumFrom(DigitsOf(DecimalValue(s)), doubled) == LuhnSumFrom(DigitValues(s), doubled)
    decreases |s|
  {
    if s == [] {
      ZeroDigits();
    } else {
      var front := s[..|s| - 1];
      var c := DigitOf(s[|s| - 1]);
      var v := DecimalValue(s);
      var w := DecimalValue(front);
      assert v == w * 10 + c;
      LuhnSumOfDecimalValue(front, !doubled);
      LuhnSumSnoc(DigitValues(front), c, doubled);
      if v < 10 {
        assert w == 0;
        ZeroDigits();
        LuhnSumSnoc([], c, doubled);
        assert [] + [c] == [c];
      } else {
        DivMod10(w, c);
        LuhnSumSnoc(DigitsOf(w), c, doubled);
      }
    }
  }

  lemma DivMod10(w: nat, c: nat)
    requires c < 10
    ensures (w * 10 + c) / 10 == w && (w * 10 + c) % 10 == c
  {
  }

  /** A leading zero leaves the Luhn sums unchanged. */
  lemma {:induction false} LuhnSumLeadingZero(ds: seq<nat>, doubled: bool)
    ensures LuhnSumFrom([0] + ds, doubled) == LuhnSumFrom(ds, doubled)
    decreases |ds|
  {
    if ds == [] {
      assert DigitsOf(0) == [0];
      assert ([0] + ds)[..0] == [];
    } else {
      assert ([0] + ds)[..|ds|] == [0] + ds[..|ds| - 1];
      LuhnSumLeadingZero(ds[..|ds| - 1], !doubled);
    }
  }

  /** Hence a leading zero changes neither validity nor the check digit. */
  lemma LuhnValidLeadingZero(ds: seq<nat>)
    ensures LuhnValid([0] + ds) <==> LuhnValid(ds)
  {
    LuhnSumLeadingZero(ds, false);
  }

  lemma CheckDigitArithmetic(total: nat, e: nat)
    requires e <= 9
    ensures var c := total % 10;
      (e + total) % 10 == 0 <==> e == (if c == 0 then 0 else 10 - c)
  {
    var c := total % 10;
    assert total == (total / 10) * 10 + c;
    assert (e + total) % 10 == (e + c) % 10;
  }

  /**
   * `_luhn_digit(id_)`: the strided sums over the digits of `int(id_) * 10`, then
   * the complement modulo 10. The result is the one digit that makes `id_` followed
   * by it pass the Luhn test.
   */
  method LuhnDigit(id: string) returns (d: nat)
    requires IsDigitString(id)
    ensures d <= 9
    ensures LuhnValid(DigitValues(id) + [d])
    ensures forall e: nat :: e <= 9 && LuhnValid(DigitValues(id) + [e]) ==> e == d
  {
    var value := DecimalValue(id);
    var digits := DigitsOf(value * 10);
    var checksum := Sum(StrideFromEnd(digits));
    var others := StrideFromSecondLast(digits);
    var i := 0;
    while i < |others|
      invariant 0 <= i <= |others|
      invariant checksum == Sum(StrideFromEnd(digits)) + DoubledSum(others[..i])
    {
      assert others[..i + 1] == others[..i] + [others[i]];
      DoubledSumAppend(others[..i], others[i]);
      checksum := checksum + DigitSum(others[i] * 2);
      i := i + 1;
    }
    assert others[..i] == others;
    StridedSums(digits);
    CheckDigitFromChecksum(id, checksum);
    checksum := checksum % 10;
    d := if checksum == 0 then 0 else 10 - checksum;
  }

  /** The complement of the Luhn sum of `int(id_) * 10`'s digits is the one digit completing `id_`. */
  lemma CheckDigitFromChecksum(id: string, checksum: nat)
    requires IsDigitString(id)
    requires checksum == LuhnSum(DigitsOf(DecimalValue(id) * 10))
    ensures var c := checksum % 10;
      var d := if c == 0 then 0 else 10 - c;
      && LuhnValid(DigitValues(id) + [d])
      && forall e: nat :: e <= 9 && LuhnValid(DigitValues(id) + [e]) ==> e == d
  {
    LuhnSumIsShiftedSum(id);
    var c := checksum % 10;
    var d := if c == 0 then 0 else 10 - c;
    forall e: nat | e <= 9
      ensures LuhnValid(DigitValues(id) + [e]) <==> e == d
    {
      LuhnSumSnoc(DigitValues(id), e, false);
      CheckDigitArithmetic(checksum, e);
    }
  }

  /** The Luhn sum of `int(s) * 10`'s digits is the sum over the digits of `s` taken one position to the left. */
  lemma LuhnSumIsShiftedSum(s: string)
    requires IsDigitString(s)
    ensures LuhnSumFrom(DigitsOf(DecimalValue(s) * 10), false) == LuhnSumFrom(DigitValues(s), true)
  {
    var v := DecimalValue(s);
    LuhnSumOfDecimalValue(s, true);
    if v == 0 {
      ZeroDigits();
    } else {
      DivMod10(v, 0);
      LuhnSumSnoc(DigitsOf(v), 0, false);
    }
  }

  // ---------------------------------------------------------------------
  // The personal number of the fixture
  // ---------------------------------------------------------------------

  /** `"{0:0{width}d}".format(n)` (the fixture formats with `04d`, `02d` and `03d`): `str(n)` padded on the left with zeros to at least `width` characters. */
  function ZeroPad(n: nat, width: nat): (r: string)
    ensures |r| == if |NatToString(n)| >= width then |NatToString(n)| else width
    ensures forall i :: 0 <= i < |r| ==> IsDigit(r[i])
    ensures DecimalValue(r) == n
  {
    var s := NatToString(n);
    if |s| >= width then NatToStringValue(n); s
    else PadValue(s, width - |s|); NatToStringValue(n); Zeros(width - |s|) + s
  }

  function Zeros(k: nat): (r: string)
    ensures |r| == k && forall i :: 0 <= i < k ==> r[i] == '0'
  {
    if k == 0 then [] else "0" + Zeros(k - 1)
  }

  /** `int(str(n)) == n`. */
  lemma {:induction false} NatToStringValue(n: nat)
    ensures DecimalValue(NatToString(n)) == n
  {
    if n >= 10 {
      var digits := "0123456789";
      var s := NatToString(n);
      assert s == NatToString(n / 10) + [digits[n % 10]];
      assert s[..|s| - 1] == NatToString(n / 10);
      NatToStringValue(n / 10);
    }
  }

  /** Leading zeros do not change `int()`. */
  lemma {:induction false} PadValue(s: string, k: nat)
    requires forall i :: 0 <= i < |s| ==> IsDigit(s[i])
    ensures DecimalValue(Zeros(k) + s) == DecimalValue(s)
    decreases |s|
  {
    if s == [] {
      assert Zeros(k) + s == Zeros(k);
      ZerosValue(k);
    } else {
      assert (Zeros(k) + s)[..|Zeros(k) + s| - 1] == Zeros(k) + s[..|s| - 1];
      PadValue(s[..|s| - 1], k);
    }
  }

  lemma {:induction false} ZerosValue(k: nat)
    ensures DecimalValue(Zeros(k)) == 0
  {
    if k > 0 {
      assert Zeros(k)[..k - 1] == Zeros(k - 1) by {
        assert Zeros(k) == "0" + Zeros(k - 1);
      }
      ZerosValue(k - 1);
    }
  }

  /**
   * `random_personal_number` with the drawn year, month, day and suffix as inputs:
   * `YYYYMMDDNNN` followed by the check digit of its last nine digits, so that
   * the last ten digits of the result pass the Luhn test.
   */
  method PersonalNumber(year: nat, month: nat, day: nat, suffix: nat) returns (pn: string)
    requires 1900 <= year <= 2014 && 1 <= month <= 12 && 1 <= day <= 28 && suffix <= 999
    ensures |pn| == 12 && IsDigitString(pn)
    ensures pn[..4] == ZeroPad(year, 4) && pn[4..6] == ZeroPad(month, 2)
    ensures pn[6..8] == ZeroPad(day, 2) && pn[8..11] == ZeroPad(suffix, 3)
    ensures LuhnValid(DigitValues(pn[2..]))
  {
    NatToStringLength(year);
    NatToStringLength(month);
    NatToStringLength(day);
    NatToStringLength(suffix);
    var yyyy, mm, dd, nnn := ZeroPad(year, 4), ZeroPad(month, 2), ZeroPad(day, 2), ZeroPad(suffix, 3);
    var prefix := yyyy + mm + dd + nnn;
    PersonalNumberDigits(yyyy, mm, dd, nnn, '0');
    var check := LuhnDigit(prefix[2..]);
    pn := prefix + NatToString(check);
    PersonalNumberOf(yyyy, mm, dd, nnn, check);
  }

  /** The fields and the check digit of `YYYYMMDDNNN` followed by `str(check)`. */
  lemma PersonalNumberOf(yyyy: string, mm: string, dd: string, nnn: string, check: nat)
    requires |yyyy| == 4 && |mm| == 2 && |dd| == 2 && |nnn| == 3
    requires forall i :: 0 <= i < |yyyy| ==> IsDigit(yyyy[i])
    requires forall i :: 0 <= i < |mm| ==> IsDigit(mm[i])
    requires forall i :: 0 <= i < |dd| ==> IsDigit(dd[i])
    requires forall i :: 0 <= i < |nnn| ==> IsDigit(nnn[i])
    requires check <= 9 && IsDigitString((yyyy + mm + dd + nnn)[2..])
    requires LuhnValid(DigitValues((yyyy + mm + dd + nnn)[2..]) + [check])
    ensures var pn := yyyy + mm + dd + nnn + NatToString(check);
      && |pn| == 12 && IsDigitString(pn)
      && pn[..4] == yyyy && pn[4..6] == mm && pn[6..8] == dd && pn[8..11] == nnn
      && LuhnValid(DigitValues(pn[2..]))
  {
    var prefix := yyyy + mm + dd + nnn;
    var digit := NatToString(check);
    assert digit == ["0123456789"[check]];
    PersonalNumberLayout(yyyy, mm, dd, nnn, digit[0]);
    PersonalNumberDigits(yyyy, mm, dd, nnn, digit[0]);
    DigitValuesAppend(prefix[2..], digit[0]);
  }

  /** Where the fields of `YYYYMMDDNNN` followed by one digit sit. */
  lemma PersonalNumberLayout(yyyy: string, mm: string, dd: string, nnn: string, c: char)
    requires |yyyy| == 4 && |mm| == 2 && |dd| == 2 && |nnn| == 3
    ensures var prefix := yyyy + mm + dd + nnn;
      var pn := prefix + [c];
      && |pn| == 12 && pn[..11] == prefix && pn[11] == c
      && pn[..4] == yyyy && pn[4..6] == mm && pn[6..8] == dd && pn[8..11] == nnn
      && pn[2..] == prefix[2..] + [c]
  {
  }

  lemma AllDigitsAppend(a: string, b: string)
    requires forall i :: 0 <= i < |a| ==> IsDigit(a[i])
    requires forall i :: 0 <= i < |b| ==> IsDigit(b[i])
    ensures forall i :: 0 <= i < |a + b| ==> IsDigit((a + b)[i])
  {
  }

  /** The digit strings of `YYYYMMDDNNN` (from its third character) and of `YYYYMMDDNNN` followed by a digit. */
  lemma PersonalNumberDigits(yyyy: string, mm: string, dd: string, nnn: string, c: char)
    requires forall i :: 0 <= i < |yyyy| ==> IsDigit(yyyy[i])
    requires forall i :: 0 <= i < |mm| ==> IsDigit(mm[i])
    requires forall i :: 0 <= i < |dd| ==> IsDigit(dd[i])
    requires forall i :: 0 <= i < |nnn| ==> IsDigit(nnn[i])
    requires IsDigit(c) && |yyyy| == 4
    ensures IsDigitString((yyyy + mm + dd + nnn)[2..])
    ensures IsDigitString(yyyy + mm + dd + nnn + [c])
  {
    AllDigitsAppend(yyyy, mm);
    AllDigitsAppend(yyyy + mm, dd);
    AllDigitsAppend(yyyy + mm + dd, nnn);
    AllDigitsAppend(yyyy + mm + dd + nnn, [c]);
  }

  /** For `n` below 10000, which covers every field the fixture formats, `str(n)` has one digit per power of ten up to `n`. */
  lemma NatToStringLength(n: nat)
    ensures n < 10 ==> |NatToString(n)| == 1
    ensures 10 <= n < 100 ==> |NatToString(n)| == 2
    ensures 100 <= n < 1000 ==> |NatToString(n)| == 3
    ensures 1000 <= n < 10000 ==> |NatToString(n)| == 4
  {
  }
}
