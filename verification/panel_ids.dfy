/**
 * Panel identifiers of an accordion: `panel-N`, with N written in decimal
 * the way a template literal writes a number.
 */
module PanelIds {

  function Digit(d: nat): (c: char)
    requires d < 10
    ensures '0' <= c <= '9'
  {
    "0123456789"[d]
  }

  /** The decimal digits of `n`, most significant first, without leading zeros. */
  function NatToDecimal(n: nat): (s: string)
    ensures |s| >= 1
    ensures forall i :: 0 <= i < |s| ==> '0' <= s[i] <= '9'
    ensures |s| == 1 <==> n < 10
    ensures s[|s| - 1] == Digit(n % 10)
  {
    if n < 10 then [Digit(n)] else NatToDecimal(n / 10) + [Digit(n % 10)]
  }

  lemma DigitInjective(a: nat, b: nat)
    requires a < 10 && b < 10 && Digit(a) == Digit(b)
    ensures a == b
  {
  }

  /** A number of two or more digits is its quotient by ten followed by its last digit. */
  lemma DecimalSplit(n: nat)
    requires n >= 10
    ensures NatToDecimal(n) == NatToDecimal(n / 10) + [Digit(n % 10)]
    ensures n == 10 * (n / 10) + n % 10 && n % 10 < 10
  {
  }

  /** Different numbers are written differently. */
  lemma {:induction false} NatToDecimalInjective(n: nat, m: nat)
    requires NatToDecimal(n) == NatToDecimal(m)
    ensures n == m
    decreases n
  {
    var s, t := NatToDecimal(n), NatToDecimal(m);
    if n < 10 {
      assert m < 10;
      DigitInjective(n, m);
    } else {
      assert m >= 10;
      DecimalSplit(n);
      DecimalSplit(m);
      var qn, rn, qm, rm := n / 10, n % 10, m / 10, m % 10;
      assert s[..|s| - 1] == NatToDecimal(qn) && s[|s| - 1] == Digit(rn);
      assert t[..|t| - 1] == NatToDecimal(qm) && t[|t| - 1] == Digit(rm);
      DigitInjective(rn, rm);
      NatToDecimalInjective(qn, qm);
    }
  }

  /** The id `register` gives the `n`-th panel. */
  function PanelId(n: nat): string {
    "panel-" + NatToDecimal(n)
  }

  /** Distinct registration counts give distinct panel ids. */
  lemma PanelIdInjective(n: nat, m: nat)
    requires PanelId(n) == PanelId(m)
    ensures n == m
  {
    assert PanelId(n)[6..] == NatToDecimal(n);
    assert PanelId(m)[6..] == NatToDecimal(m);
    NatToDecimalInjective(n, m);
  }
}
