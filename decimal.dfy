/** Decimal formatting as Go's `fmt` does it for `%d`, `%<w>d` and the zero-padded time fields. */
module Decimal {

  predicate IsDigit(ch: char) {
    '0' as int <= ch as int <= '9' as int
  }

  function Digit(d: nat): (ch: char)
    requires d < 10
    ensures IsDigit(ch)
  {
    ('0' as int + d) as char
  }

  /** `fmt.Sprint(n)` for a non-negative integer: its decimal digits, no leading zero. */
  function Itoa(n: nat): (r: string)
    ensures |r| >= 1
    ensures forall i :: 0 <= i < |r| ==> IsDigit(r[i])
    ensures r[0] == '0' ==> n == 0
  {
    if n < 10 then [Digit(n)] else Itoa(n / 10) + [Digit(n % 10)]
  }

  /** The value of a string of decimal digits. */
  function Value(s: string): nat
    requires forall i :: 0 <= i < |s| ==> IsDigit(s[i])
  {
    if |s| == 0 then 0
    else
      assert IsDigit(s[|s| - 1]);
      10 * Value(s[..|s| - 1]) + (s[|s| - 1] as int - '0' as int)
  }

  /** Reading back the digits of `Itoa(n)` gives `n`. */
  lemma {:induction false} ValueItoa(n: nat)
    ensures Value(Itoa(n)) == n
  {
    if n >= 10 {
      ValueItoa(n / 10);
      var r := Itoa(n);
      assert r[..|r| - 1] == Itoa(n / 10);
    }
  }

  /** Larger numbers never have fewer digits. */
  lemma {:induction false} ItoaLengthMonotone(m: nat, n: nat)
    requires m <= n
    ensures |Itoa(m)| <= |Itoa(n)|
  {
    if m >= 10 {
      ItoaLengthMonotone(m / 10, n / 10);
    }
  }

  function Repeat(ch: char, k: nat): (r: string)
    ensures |r| == k
    ensures forall i :: 0 <= i < k ==> r[i] == ch
  {
    if k == 0 then "" else Repeat(ch, k - 1) + [ch]
  }

  /** `s` right-aligned in a field of width `w` filled with `fill`; never truncates. */
  function PadLeft(s: string, w: nat, fill: char): (r: string)
    ensures |r| == if |s| < w then w else |s|
    ensures r[|r| - |s|..] == s
    ensures forall i :: 0 <= i < |r| - |s| ==> r[i] == fill
  {
    if |s| < w then Repeat(fill, w - |s|) + s else s
  }

  /** `fmt.Sprintf("%<w>d", n)`. */
  function FormatWidth(n: nat, w: nat): (r: string)
    ensures |Itoa(n)| <= w ==> |r| == w
  {
    PadLeft(Itoa(n), w, ' ')
  }

  /** A time field such as "01" or "2006": `n` zero-padded to `w` digits. */
  function ZeroPad(n: nat, w: nat): (r: string)
    ensures |r| == if |Itoa(n)| < w then w else |Itoa(n)|
    ensures forall i :: 0 <= i < |r| - |Itoa(n)| ==> r[i] == '0'
    ensures forall i :: 0 <= i < |r| ==> IsDigit(r[i])
    ensures Value(r) == n
  {
    var r := PadLeft(Itoa(n), w, '0');
    ValueItoa(n);
    LeadingZeros(Itoa(n), |r| - |Itoa(n)|);
    assert r == Repeat('0', |r| - |Itoa(n)|) + Itoa(n);
    r
  }

  lemma {:induction false} LeadingZeros(s: string, k: nat)
    requires forall i :: 0 <= i < |s| ==> IsDigit(s[i])
    ensures Value(Repeat('0', k) + s) == Value(s)
    decreases |s|
  {
    var z := Repeat('0', k);
    if |s| == 0 {
      ZerosValue(k);
      assert z + s == z;
    } else {
      var t := z + s;
      assert t[..|t| - 1] == z + s[..|s| - 1];
      LeadingZeros(s[..|s| - 1], k);
    }
  }

  lemma {:induction false} ZerosValue(k: nat)
    ensures Value(Repeat('0', k)) == 0
  {
    if k > 0 {
      ZerosValue(k - 1);
      assert Repeat('0', k)[..k - 1] == Repeat('0', k - 1);
    }
  }
}
