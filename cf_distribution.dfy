/** The `random_string` property of `CloudFrontDistribution` and the
    origin-access-control name built from it. The calls to
    `random.randint(0, 10)` are given as the sequence of their results. */
module CfDistribution {

  /** One result of `random.randint(0, 10)`: both ends included. */
  type Draw = d: int | 0 <= d <= 10

  const OriginAccessControlPrefix := "secure-static-site-"

  predicate IsDigit(c: char)
  {
    '0' <= c <= '9'
  }

  predicate AllDigits(s: string)
  {
    forall i :: 0 <= i < |s| ==> IsDigit(s[i])
  }

  /** The integer a string of decimal digits denotes. */
  function DecimalValue(s: string): nat
    requires AllDigits(s)
  {
    if s == [] then 0 else 10 * DecimalValue(s[..|s| - 1]) + (s[|s| - 1] as int - '0' as int)
  }

  /** `str(n)` for a natural number: its decimal digits, without leading zeros. */
  function DecimalString(n: nat): (s: string)
    ensures |s| >= 1
    ensures n < 10 ==> |s| == 1
    ensures 10 <= n < 100 ==> |s| == 2
  {
    var last := ['0' + (n % 10) as char];
    if n < 10 then last else DecimalString(n / 10) + last
  }

  /** `str` writes decimal digits only. */
  lemma {:induction false} DecimalDigits(n: nat)
    ensures AllDigits(DecimalString(n))
  {
    if n >= 10 {
      DecimalDigits(n / 10);
    }
  }

  /** `str` and `int` are inverse on natural numbers, and `str` writes no
      leading zero. */
  lemma {:induction false} DecimalRoundTrip(n: nat)
    ensures AllDigits(DecimalString(n)) && DecimalValue(DecimalString(n)) == n
    ensures DecimalString(n)[0] == '0' ==> n == 0
  {
    DecimalDigits(n);
    if n >= 10 {
      DecimalRoundTrip(n / 10);
      var s := DecimalString(n);
      assert s[..|s| - 1] == DecimalString(n / 10);
      assert s[0] == DecimalString(n / 10)[0];
    }
  }

  /** The concatenated renderings of `draws`, in order. */
  function Rendered(draws: seq<Draw>): (s: string)
    ensures |draws| <= |s| <= 2 * |draws|
  {
    if draws == [] then ""
    else Rendered(draws[..|draws| - 1]) + DecimalString(draws[|draws| - 1])
  }

  /** The concatenated renderings are decimal digits only. */
  lemma {:induction false} RenderedDigits(draws: seq<Draw>)
    ensures AllDigits(Rendered(draws))
  {
    if draws != [] {
      RenderedDigits(draws[..|draws| - 1]);
      DecimalDigits(draws[|draws| - 1]);
    }
  }

  /** Each draw renders as one character, except 10, which renders as two. */
  lemma DrawWidth(d: Draw)
    ensures |DecimalString(d)| == if d == 10 then 2 else 1
  {
  }

  /** Rendering more draws never gives a shorter string. */
  lemma {:induction false} RenderedGrows(draws: seq<Draw>, m: nat, n: nat)
    requires m <= n <= |draws|
    ensures |Rendered(draws[..m])| <= |Rendered(draws[..n])|
    decreases n - m
  {
    if m < n {
      RenderedGrows(draws, m, n - 1);
      assert draws[..n][..n - 1] == draws[..n - 1];
    }
  }

  /** One more draw appends its rendering. */
  lemma RenderedStep(draws: seq<Draw>, n: nat)
    requires n < |draws|
    ensures Rendered(draws[..n + 1]) == Rendered(draws[..n]) + DecimalString(draws[n])
  {
    assert draws[..n + 1][..n] == draws[..n];
  }

  /** `random_string`: appends the rendering of one draw at a time while the
      string is shorter than 20. Returns the string and how many draws it used. */
  method RandomString(draws: seq<Draw>) returns (s: string, used: nat)
    requires |draws| >= 20
    ensures 10 <= used <= 20 && s == Rendered(draws[..used])
    ensures 20 <= |s| <= 21 && AllDigits(s)
    ensures forall n :: 0 <= n < used ==> |Rendered(draws[..n])| < 20
  {
    s := "";
    used := 0;
    while |s| < 20
      invariant used <= 20 && used <= |s| <= 2 * used && |s| <= 21
      invariant s == Rendered(draws[..used])
      invariant used > 0 ==> |Rendered(draws[..used - 1])| < 20
      decreases 20 - |s|
    {
      RenderedStep(draws, used);
      DrawWidth(draws[used]);
      s := s + DecimalString(draws[used]);
      used := used + 1;
    }
    forall n | 0 <= n < used
      ensures |Rendered(draws[..n])| < 20
    {
      RenderedGrows(draws, n, used - 1);
    }
    RenderedDigits(draws[..used]);
  }

  /** The `Name` of the origin access control: the prefix followed by a fresh
      `random_string`, 39 or 40 characters in all. Returns the name and how
      many draws `random_string` used. */
  method OriginAccessControlName(draws: seq<Draw>) returns (name: string, used: nat)
    requires |draws| >= 20
    ensures 10 <= used <= 20 && name == OriginAccessControlPrefix + Rendered(draws[..used])
    ensures forall n :: 0 <= n < used ==> |Rendered(draws[..n])| < 20
    ensures 39 <= |name| <= 40
    ensures name[..|OriginAccessControlPrefix|] == OriginAccessControlPrefix
    ensures AllDigits(name[|OriginAccessControlPrefix|..])
  {
    var suffix;
    suffix, used := RandomString(draws);
    name := OriginAccessControlPrefix + suffix;
    assert name[|OriginAccessControlPrefix|..] == suffix;
  }
}
