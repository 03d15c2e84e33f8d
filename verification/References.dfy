/** Request references on the wire: the counter rendered in decimal. Incoming strings
    are classified by the reference they spell, so that comparing numbers in the model
    is comparing strings on the wire. */
module References {

  function Digit(d: nat): char
    requires d < 10
  {
    ('0' as int + d) as char
  }

  predicate IsDigit(c: char) {
    '0' <= c <= '9'
  }

  function DigitValue(c: char): nat
    requires IsDigit(c)
  {
    c as int - '0' as int
  }

  function Decimal(n: nat): string {
    if n < 10 then [Digit(n)] else Decimal(n / 10) + [Digit(n % 10)]
  }

  predicate AllDigits(s: string) {
    forall i :: 0 <= i < |s| ==> IsDigit(s[i])
  }

  function ValueOf(s: string): nat
    requires AllDigits(s)
    decreases |s|
  {
    if s == [] then 0 else ValueOf(s[..|s| - 1]) * 10 + DigitValue(s[|s| - 1])
  }

  /** The decimal rendering of a positive number. */
  predicate Canonical(s: string) {
    s != [] && AllDigits(s) && s[0] != '0'
  }

  /** The reference a string spells, or 0, which is never allocated. */
  function Classify(s: string): nat {
    if Canonical(s) then ValueOf(s) else 0
  }

  lemma {:induction false} DecimalReadsBack(n: nat)
    ensures AllDigits(Decimal(n)) && Decimal(n) != [] && ValueOf(Decimal(n)) == n
    ensures n >= 1 ==> Decimal(n)[0] != '0'
    decreases n
  {
    if n < 10 {
      assert [Digit(n)][..0] == [];
    } else {
      DecimalReadsBack(n / 10);
      var s := Decimal(n);
      assert s[..|s| - 1] == Decimal(n / 10);
    }
  }

  lemma {:induction false} CanonicalIsRendered(s: string)
    requires Canonical(s)
    ensures ValueOf(s) >= 1 && Decimal(ValueOf(s)) == s
    decreases |s|
  {
    var rest, last := s[..|s| - 1], s[|s| - 1];
    if rest == [] {
      assert s == [last] && ValueOf(rest) == 0;
    } else {
      CanonicalIsRendered(rest);
      assert s == rest + [last];
    }
  }

  /** A string is the rendering of reference `n` exactly when it is classified as `n`. */
  lemma ClassifyIff(n: nat, s: string)
    requires n >= 1
    ensures s == Decimal(n) <==> Classify(s) == n
  {
    DecimalReadsBack(n);
    if Canonical(s) {
      CanonicalIsRendered(s);
    }
  }

  /** Different references never share a rendering. */
  lemma DecimalInjective(m: nat, n: nat)
    ensures Decimal(m) == Decimal(n) ==> m == n
  {
    DecimalReadsBack(m);
    DecimalReadsBack(n);
  }
}
