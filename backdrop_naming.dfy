/**
 * Backdrop file names: "Backdrop" + (the counter in en-US decimal when it
 * is positive) + ".jpg".
 */
module BackdropNaming {
  import opened FanArtTypes

  predicate IsDigits(s: string) {
    forall i :: 0 <= i < |s| ==> IsDigit(s[i])
  }

  function DigitChar(d: nat): (c: char)
    requires d < 10
    ensures '0' <= c <= '9' && c as int - '0' as int == d
  {
    ('0' as int + d) as char
  }

  /** Int32.ToString for a non-negative value: decimal digits, no sign, no separators. */
  function DecimalString(n: nat): (s: string)
    ensures |s| >= 1 && IsDigits(s)
    ensures (s[0] == '0') == (n == 0)
    decreases n
  {
    if n < 10 then [DigitChar(n)] else DecimalString(n / 10) + [DigitChar(n % 10)]
  }

  /** The value of a string of decimal digits. */
  function DecimalValue(s: string): nat
    requires IsDigits(s)
    decreases |s|
  {
    if s == [] then 0 else DecimalValue(s[..|s| - 1]) * 10 + (s[|s| - 1] as int - '0' as int)
  }

  /** Reading the digits back yields the number that was printed. */
  lemma {:induction false} DecimalRoundTrip(n: nat)
    ensures DecimalValue(DecimalString(n)) == n
    decreases n
  {
    var s := DecimalString(n);
    if n >= 10 {
      DecimalRoundTrip(n / 10);
      assert s[..|s| - 1] == DecimalString(n / 10);
    }
  }

  /** Distinct counters print differently. */
  lemma DecimalStringInjective(a: nat, b: nat)
    requires DecimalString(a) == DecimalString(b)
    ensures a == b
  {
    DecimalRoundTrip(a);
    DecimalRoundTrip(b);
  }

  const BACKDROP_STEM: string := "Backdrop"
  const BACKDROP_EXTENSION: string := ".jpg"

  /** The text between stem and extension: empty for the first backdrop, the counter after it. */
  function CounterText(index: nat): (t: string)
    ensures t == "" <==> index == 0
  {
    if index > 0 then DecimalString(index) else ""
  }

  /** The file name of the backdrop saved when `index` backdrops have already been saved. */
  function BackdropName(index: nat): (name: string)
    ensures |name| == |BACKDROP_STEM| + |CounterText(index)| + |BACKDROP_EXTENSION|
    ensures name[..|BACKDROP_STEM|] == BACKDROP_STEM
    ensures name[|name| - |BACKDROP_EXTENSION|..] == BACKDROP_EXTENSION
  {
    BACKDROP_STEM + CounterText(index) + BACKDROP_EXTENSION
  }

  /** Backdrop.jpg, Backdrop1.jpg, Backdrop2.jpg are the first three names. */
  lemma FirstBackdropNames()
    ensures BackdropName(0) == "Backdrop.jpg"
    ensures BackdropName(1) == "Backdrop1.jpg"
    ensures BackdropName(2) == "Backdrop2.jpg"
  {
  }

  /** No two backdrops of one cycle are saved under the same file name. */
  lemma BackdropNameInjective(i: nat, j: nat)
    requires BackdropName(i) == BackdropName(j)
    ensures i == j
  {
    var a, b := BackdropName(i), BackdropName(j);
    var lo := |BACKDROP_STEM|;
    assert CounterText(i) == a[lo..|a| - |BACKDROP_EXTENSION|];
    assert CounterText(j) == b[lo..|b| - |BACKDROP_EXTENSION|];
    if i > 0 && j > 0 {
      DecimalStringInjective(i, j);
    }
  }
}
