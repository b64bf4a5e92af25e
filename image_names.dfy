/**
 * Slide image file names: the decimal rendering of a slide's 1-based position,
 * left-padded with '0' to two characters, under the slider's folder
 * (`${folder}/${String(i).padStart(2, '0')}.jpg`).
 */
module ImageNames {

  predicate IsDigit(c: char) {
    '0' <= c <= '9'
  }

  predicate AllDigits(s: string) {
    forall i :: 0 <= i < |s| ==> IsDigit(s[i])
  }

  function DigitChar(d: nat): (c: char)
    requires d < 10
    ensures IsDigit(c) && DigitValue(c) == d
  {
    ('0' as int + d) as char
  }

  function DigitValue(c: char): (d: nat)
    requires IsDigit(c)
    ensures d < 10
  {
    c as int - '0' as int
  }

  /** `String(n)` for a non-negative integer: its decimal digits, without leading zeros. */
  function NatToString(n: nat): (s: string)
    ensures |s| >= 1 && AllDigits(s)
    ensures |s| == 1 <==> n < 10
    ensures n > 0 ==> s[0] != '0'
  {
    if n < 10 then [DigitChar(n)] else NatToString(n / 10) + [DigitChar(n % 10)]
  }

  /** The number a string of decimal digits denotes (leading zeros allowed). */
  function DecimalValue(s: string): nat
    requires AllDigits(s)
  {
    if s == [] then 0 else DecimalValue(s[..|s| - 1]) * 10 + DigitValue(s[|s| - 1])
  }

  lemma {:induction false} DecimalValueOfNatToString(n: nat)
    ensures DecimalValue(NatToString(n)) == n
  {
    if n >= 10 {
      var s := NatToString(n);
      assert s[..|s| - 1] == NatToString(n / 10);
      DecimalValueOfNatToString(n / 10);
    }
  }

  lemma {:induction false} DecimalValueIgnoresLeadingZero(s: string)
    requires AllDigits(s)
    ensures AllDigits(['0'] + s) && DecimalValue(['0'] + s) == DecimalValue(s)
  {
    if s != [] {
      var t := ['0'] + s;
      assert t[..|t| - 1] == ['0'] + s[..|s| - 1];
      DecimalValueIgnoresLeadingZero(s[..|s| - 1]);
    }
  }

  /** `s.padStart(width, fill)` for a one-character fill string. */
  function PadStart(s: string, width: nat, fill: char): (r: string)
    ensures |r| == (if |s| >= width then |s| else width)
    ensures r[|r| - |s|..] == s
    ensures forall i :: 0 <= i < |r| - |s| ==> r[i] == fill
  {
    if |s| >= width then s else seq(width - |s|, _ => fill) + s
  }

  /** `String(i).padStart(2, '0')`. */
  function Pad2(i: nat): (r: string)
    ensures AllDigits(r)
    ensures i < 10 ==> r == ['0', DigitChar(i)]
    ensures i >= 10 ==> r == NatToString(i)
  {
    PadStart(NatToString(i), 2, '0')
  }

  /** Padding never changes the number a name denotes, so it round-trips. */
  lemma Pad2RoundTrip(i: nat)
    ensures DecimalValue(Pad2(i)) == i
  {
    DecimalValueOfNatToString(i);
    if i < 10 {
      DecimalValueIgnoresLeadingZero(NatToString(i));
      assert Pad2(i) == ['0'] + NatToString(i);
    }
  }

  lemma Pad2Injective(i: nat, j: nat)
    requires Pad2(i) == Pad2(j)
    ensures i == j
  {
    Pad2RoundTrip(i);
    Pad2RoundTrip(j);
  }

  /** The `src` of the image of slide `i`. */
  function ImagePath(folder: string, i: nat): string {
    folder + "/" + Pad2(i) + ".jpg"
  }

  /** The paths of a folder's images are pairwise distinct. */
  lemma ImagePathInjective(folder: string, i: nat, j: nat)
    requires ImagePath(folder, i) == ImagePath(folder, j)
    ensures i == j
  {
    var p, q := Pad2(i), Pad2(j);
    var all := ImagePath(folder, i);
    var start := |folder| + 1;
    assert |p| == |q|;
    assert all[start..start + |p|] == p;
    assert ImagePath(folder, j)[start..start + |q|] == q;
    Pad2Injective(i, j);
  }

  /** The image paths of slides 1..n, in order. */
  function ImagePaths(folder: string, n: nat): (r: seq<string>)
    ensures |r| == n
    ensures forall k :: 0 <= k < n ==> r[k] == ImagePath(folder, k + 1)
  {
    seq(n, (k: nat) => ImagePath(folder, k + 1))
  }

  lemma ImagePathsDistinct(folder: string, n: nat)
    ensures forall a, b :: 0 <= a < b < n ==> ImagePaths(folder, n)[a] != ImagePaths(folder, n)[b]
  {
    forall a, b | 0 <= a < b < n
      ensures ImagePaths(folder, n)[a] != ImagePaths(folder, n)[b]
    {
      if ImagePath(folder, a + 1) == ImagePath(folder, b + 1) {
        ImagePathInjective(folder, a + 1, b + 1);
      }
    }
  }
}
